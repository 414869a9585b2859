/** Vocabulary shared by the two geolocation hooks and the home page: permission
    states, position requests and their outcomes, and the classification of
    the W3C Geolocation API's error codes. */
module Geo {

  datatype Option<+T> = None | Some(value: T)

  /** The hook's view of the platform permission for "geolocation". */
  datatype PermissionState = Granted | Denied | Prompt | Unknown

  /** JavaScript truthiness of a nullable number: null and 0 are falsy.
      Coordinates are abstracted to integers; NaN is not modelled. */
  predicate Truthy(x: Option<int>) {
    x.Some? && x.value != 0
  }

  /** The options object handed to getCurrentPosition or watchPosition.
      None stands for a key whose value is undefined. */
  datatype PositionOptions = PositionOptions(
    enableHighAccuracy: Option<bool>,
    timeout: Option<int>,
    maximumAge: Option<int>)

  /** The coordinates of a GeolocationPosition. */
  datatype Coords = Coords(latitude: int, longitude: int, accuracy: int)

  /** What the platform answers to one position request. */
  datatype PositionOutcome = Position(coords: Coords) | PositionError(code: int)

  /** What navigator.permissions.query answers: a state, or a rejection. */
  datatype QueryAnswer = Answered(state: PermissionState) | Threw

  /** GeolocationPositionError codes. */
  const PERMISSION_DENIED: int := 1
  const POSITION_UNAVAILABLE: int := 2
  const TIMEOUT: int := 3

  /** The error both hooks record when navigator.geolocation is missing. */
  const UnsupportedMessage := "Geolocation bu tarayıcıda desteklenmiyor"

  datatype ErrorKind = PermissionDenied | PositionUnavailable | Timeout | OtherError

  /** The `switch (error.code)` of every error handler: three named codes,
      everything else falls to the default case. */
  function Classify(code: int): (k: ErrorKind)
    ensures k == PermissionDenied <==> code == PERMISSION_DENIED
    ensures k == PositionUnavailable <==> code == POSITION_UNAVAILABLE
    ensures k == Timeout <==> code == TIMEOUT
  {
    if code == PERMISSION_DENIED then PermissionDenied
    else if code == POSITION_UNAVAILABLE then PositionUnavailable
    else if code == TIMEOUT then Timeout
    else OtherError
  }

  /** One fixed message per error kind; each handler has its own table. */
  datatype MessageTable = MessageTable(denied: string, unavailable: string, timeout: string, other: string) {

    predicate Distinct() {
      && denied != unavailable && denied != timeout && denied != other
      && unavailable != timeout && unavailable != other
      && timeout != other
    }

    /** The message an error handler records for a platform error code. */
    function Message(code: int): (m: string)
      ensures m in {denied, unavailable, timeout, other}
      ensures m == denied <== code == PERMISSION_DENIED
      ensures m == unavailable <== code == POSITION_UNAVAILABLE
      ensures m == timeout <== code == TIMEOUT
      ensures m == other <== Classify(code) == OtherError
    {
      match Classify(code)
      case PermissionDenied => denied
      case PositionUnavailable => unavailable
      case Timeout => timeout
      case OtherError => other
    }
  }

  /** With a table of four different messages, the recorded message tells the
      error kind back: the mapping from kinds to messages loses nothing. */
  lemma MessageDeterminesKind(t: MessageTable, c1: int, c2: int)
    requires t.Distinct()
    requires t.Message(c1) == t.Message(c2)
    ensures Classify(c1) == Classify(c2)
  {
  }
}

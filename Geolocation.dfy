/** The one-shot geolocation hook: a state record that starts out loading,
    requests issued on mount and by refresh, and the success and error
    callbacks of those requests. Issuing a request and receiving its callback
    are separate operations; the platform's answer arrives as the callback's
    parameter. */
module Geolocation {
  import opened Geo

  datatype GeolocationState = GeolocationState(
    latitude: Option<int>,
    longitude: Option<int>,
    accuracy: Option<int>,
    error: Option<string>,
    loading: bool)

  const InitialState := GeolocationState(None, None, None, None, true)

  /** A key of the caller's options object: left out, present but undefined,
      or present with a value. */
  datatype Setting<T> = Absent | Undefined | Given(value: T)

  datatype GeolocationOptions = GeolocationOptions(
    enableHighAccuracy: Setting<bool>,
    timeout: Setting<int>,
    maximumAge: Setting<int>)

  const NoOptions := GeolocationOptions(Absent, Absent, Absent)

  const DefaultOptions := PositionOptions(Some(true), Some(10000), Some(0))

  const Messages := MessageTable(
    "Konum izni reddedildi. Lütfen tarayıcı ayarlarından konum iznini etkinleştirin.",
    "Konum bilgisi mevcut değil.",
    "Konum alma işlemi zaman aşımına uğradı.",
    "Bilinmeyen bir hata oluştu.")


  /** One key of an object spread over the defaults: a key the caller left
      out keeps the default, a key the caller wrote wins, even when undefined. */
  function Override<T>(default: T, s: Setting<T>): (r: Option<T>)
    ensures s.Absent? ==> r == Some(default)
    ensures s.Given? ==> r == Some(s.value)
    ensures r.None? <==> s.Undefined?
  {
    match s
    case Absent => Some(default)
    case Undefined => None
    case Given(v) => Some(v)
  }

  /** The options passed to getCurrentPosition: the defaults, overridden key
      by key by the caller's options. */
  function EffectiveOptions(o: GeolocationOptions): (r: PositionOptions)
    ensures r.enableHighAccuracy == Override(DefaultOptions.enableHighAccuracy.value, o.enableHighAccuracy)
    ensures r.timeout == Override(DefaultOptions.timeout.value, o.timeout)
    ensures r.maximumAge == Override(DefaultOptions.maximumAge.value, o.maximumAge)
  {
    PositionOptions(
      Override(true, o.enableHighAccuracy),
      Override(10000, o.timeout),
      Override(0, o.maximumAge))
  }

  /** Without caller options the request uses the defaults; with a full set of
      values the caller's own options are used. */
  lemma DefaultsAndOverrides(a: bool, t: int, m: int)
    ensures EffectiveOptions(NoOptions) == DefaultOptions
    ensures EffectiveOptions(GeolocationOptions(Given(a), Given(t), Given(m))) == PositionOptions(Some(a), Some(t), Some(m))
  {
  }

  lemma MessagesDistinct()
    ensures Messages.Distinct() && UnsupportedMessage !in {Messages.denied, Messages.unavailable, Messages.timeout, Messages.other}
  {
  }

  /** The message an error callback records tells the error kind back, and
      is never the message for a missing geolocation API. */
  lemma ErrorMessageNamesKind(c1: int, c2: int)
    requires Messages.Message(c1) == Messages.Message(c2)
    ensures Classify(c1) == Classify(c2)
    ensures Messages.Message(c1) != UnsupportedMessage
  {
    MessagesDistinct();
    MessageDeterminesKind(Messages, c1, c2);
  }

  /** The five messages the hook can ever record. */
  predicate KnownError(e: Option<string>) {
    e.None? || e.value in {Messages.denied, Messages.unavailable, Messages.timeout, Messages.other, UnsupportedMessage}
  }

  class GeolocationHook {
    const hasGeolocation: bool
    const options: GeolocationOptions
    var state: GeolocationState
    /** The getCurrentPosition calls issued so far, with their options. */
    var requests: seq<PositionOptions>

    /** While loading no error is shown, the error is always one of the fixed
        messages, and the three coordinates are known or unknown together. */
    predicate Valid()
      reads this
    {
      && (state.loading ==> state.error.None?)
      && KnownError(state.error)
      && state.latitude.Some? == state.longitude.Some? == state.accuracy.Some?
    }

    constructor (hasGeolocation: bool, options: GeolocationOptions)
      ensures this.hasGeolocation == hasGeolocation && this.options == options
      ensures state == InitialState && requests == [] && Valid()
    {
      this.hasGeolocation := hasGeolocation;
      this.options := options;
      state := InitialState;
      requests := [];
    }

    /** The mount effect. */
    method Mount()
      requires Valid()
      modifies this
      ensures Valid()
      ensures !hasGeolocation ==>
        state == old(state).(error := Some(UnsupportedMessage), loading := false) && requests == old(requests)
      ensures hasGeolocation ==>
        state == old(state) && requests == old(requests) + [EffectiveOptions(options)]
    {
      if !hasGeolocation {
        state := state.(error := Some(UnsupportedMessage), loading := false);
        return;
      }
      var effective := EffectiveOptions(options);
      requests := requests + [effective];
    }

    /** refresh: shows loading and clears the error before asking again. */
    method Refresh()
      requires Valid()
      modifies this
      ensures Valid()
      ensures !hasGeolocation ==>
        state == old(state).(error := Some(UnsupportedMessage), loading := false) && requests == old(requests)
      ensures hasGeolocation ==>
        state == old(state).(loading := true, error := None) && requests == old(requests) + [EffectiveOptions(options)]
    {
      state := state.(loading := true, error := None);
      if !hasGeolocation {
        state := state.(error := Some(UnsupportedMessage), loading := false);
        return;
      }
      var effective := EffectiveOptions(options);
      requests := requests + [effective];
    }

    /** The success callback of an issued request. */
    method HandleSuccess(c: Coords)
      requires Valid() && requests != []
      modifies this`state
      ensures Valid()
      ensures state == GeolocationState(Some(c.latitude), Some(c.longitude), Some(c.accuracy), None, false)
    {
      state := GeolocationState(Some(c.latitude), Some(c.longitude), Some(c.accuracy), None, false);
    }

    /** The error callback of an issued request: the coordinates stay. */
    method HandleError(code: int)
      requires Valid() && requests != []
      modifies this`state
      ensures Valid()
      ensures state == old(state).(error := Some(Messages.Message(code)), loading := false)
    {
      var message := Messages.Message(code);
      state := state.(error := Some(message), loading := false);
    }
  }
}

/**
 * The frame sequencer of the weather map view: from the weather-maps payload
 * and the selected data kind it derives the ordered list of frames to show
 * and the position to start at (the boundary between observed and forecast
 * frames).
 */
module Frames {
  import opened Wrappers

  /** One time-stamped tile set: its timestamp and its tile-path fragment. */
  datatype Frame = Frame(time: int, path: string)

  /**
   * The parts of the weather-maps payload that the sequencer reads:
   * `radar.past`, `radar.nowcast` and `satellite.infrared`, each possibly absent.
   */
  datatype Payload = Payload(
    radarPast: Option<seq<Frame>>,
    radarNowcast: Option<seq<Frame>>,
    satInfrared: Option<seq<Frame>>)

  const SatelliteKind: string := "satellite"
  const RadarKind: string := "radar"

  /** Which list the sequencer takes its frames from. */
  datatype Branch = InfraredBranch | RadarBranch | NoBranch

  /**
   * The infrared list is used only when the satellite kind is asked for and the
   * list is present; otherwise the radar list is used when `past` is present.
   */
  function Chosen(api: Payload, kind: string): Branch {
    if kind == SatelliteKind && api.satInfrared.Some? then InfraredBranch
    else if api.radarPast.Some? then RadarBranch
    else NoBranch
  }

  /** The frames of the chosen branch that lie at or before "now". */
  function Observed(api: Payload, kind: string): seq<Frame> {
    match Chosen(api, kind)
    case InfraredBranch => api.satInfrared.value
    case RadarBranch => api.radarPast.value
    case NoBranch => []
  }

  /** The forecast frames of the chosen branch (only radar has any). */
  function Forecast(api: Payload, kind: string): seq<Frame> {
    if Chosen(api, kind) == RadarBranch then api.radarNowcast.GetOr([]) else []
  }

  /**
   * The outcome of the sequencer: the new frame list, and the new animation
   * position, or None when the position is to be left as it was.
   */
  datatype Sequenced = Sequenced(frames: seq<Frame>, start: Option<int>)

  /**
   * The sequencer. Its result is the observed frames followed by the forecast
   * frames, and its start position is the last observed frame (-1 when there
   * is none); when neither branch applies the list is emptied and the position
   * is not touched.
   */
  function Sequence(api: Payload, kind: string): (r: Sequenced)
    ensures r.frames == Observed(api, kind) + Forecast(api, kind)
    ensures r.start.None? <==> Chosen(api, kind) == NoBranch
    ensures r.start.Some? ==> r.start.value == |Observed(api, kind)| - 1
  {
    if kind == SatelliteKind && api.satInfrared.Some? then
      var frames := api.satInfrared.value;
      Sequenced(frames, Some(|frames| - 1))
    else if api.radarPast.Some? then
      var frames := api.radarPast.value;
      var frames := if api.radarNowcast.Some? then frames + api.radarNowcast.value else frames;
      Sequenced(frames, Some(|api.radarPast.value| - 1))
    else
      Sequenced([], None)
  }

  /** With the satellite kind and an infrared list, the frames are that list and start at its last frame. */
  lemma InfraredSequence(api: Payload)
    requires api.satInfrared.Some?
    ensures Sequence(api, SatelliteKind) == Sequenced(api.satInfrared.value, Some(|api.satInfrared.value| - 1))
  {
  }

  /**
   * On the radar branch the frames are `past` followed by `nowcast` (just
   * `past` when `nowcast` is absent) and the start is the last past frame.
   */
  lemma RadarSequence(api: Payload, kind: string)
    requires api.radarPast.Some?
    requires kind != SatelliteKind || api.satInfrared.None?
    ensures Sequence(api, kind).frames ==
              api.radarPast.value + (if api.radarNowcast.Some? then api.radarNowcast.value else [])
    ensures api.radarNowcast.None? ==> Sequence(api, kind).frames == api.radarPast.value
    ensures Sequence(api, kind).start == Some(|api.radarPast.value| - 1)
  {
  }

  /** Asking for satellite data when there is no infrared list gives exactly the radar result. */
  lemma SatelliteFallsBackToRadar(api: Payload)
    requires api.satInfrared.None?
    ensures Sequence(api, SatelliteKind) == Sequence(api, RadarKind)
  {
  }

  /** Every kind other than "satellite" (including the empty string) is treated as radar. */
  lemma OnlySatelliteKindMatters(api: Payload, k1: string, k2: string)
    requires (k1 == SatelliteKind) == (k2 == SatelliteKind)
    ensures Sequence(api, k1) == Sequence(api, k2)
  {
  }

  /** When neither branch applies the list is emptied and the position is left alone. */
  lemma NoBranchEmpties(api: Payload, kind: string)
    requires kind != SatelliteKind || api.satInfrared.None?
    requires api.radarPast.None?
    ensures Sequence(api, kind) == Sequenced([], None)
  {
  }

  /**
   * The start position splits the list: every frame up to it is an observed
   * frame and every frame after it is a forecast frame. It indexes a frame
   * exactly when the observed list is non-empty.
   */
  lemma StartIsBoundary(api: Payload, kind: string)
    requires Chosen(api, kind) != NoBranch
    ensures var r := Sequence(api, kind);
      && (0 <= r.start.value < |r.frames| <==> |Observed(api, kind)| > 0)
      && (forall i :: 0 <= i <= r.start.value ==> r.frames[i] == Observed(api, kind)[i])
      && (forall i :: r.start.value < i < |r.frames| ==>
            r.frames[i] == Forecast(api, kind)[i - r.start.value - 1])
  {
  }

  /** On the satellite branch there is no forecast: the start is the last frame of the list. */
  lemma InfraredStartIsLast(api: Payload)
    requires Chosen(api, SatelliteKind) == InfraredBranch
    ensures Sequence(api, SatelliteKind).start == Some(|Sequence(api, SatelliteKind).frames| - 1)
  {
  }
}

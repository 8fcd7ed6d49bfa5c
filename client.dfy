/**
 * The top-level weather map view: its state cells, the handlers that update
 * them, and what holds over any sequence of handler calls.
 */
module WeatherMap {
  import opened Wrappers
  import opened Frames
  import opened ViewOptions

  /** A snapshot of the view's state cells. */
  datatype State = State(
    apiData: Option<Payload>,
    mapFrames: seq<Frame>,
    animationPosition: int,
    isPlaying: bool,
    options: Options)

  /** The state at mount: no data, no frames, position 0, stopped, initial options. */
  function InitialState(): State {
    State(None, [], 0, false, InitialOptions())
  }

  /** The handlers of the view, as events. `OnDataArrived` is the fetch callback. */
  datatype Event =
    | OnDataArrived(api: Payload)
    | OnUpdateOptions(patch: OptionsPatch)
    | OnPlayStop
    | OnPrevFrame
    | OnNextFrame

  /**
   * The state after `initialize(api, kind)`: nothing changes without data;
   * otherwise the frames are re-sequenced and the position moves to the
   * sequencer's start, or stays where it was when no branch applies.
   */
  function Initialized(s: State, api: Option<Payload>, kind: string): (t: State)
    ensures t.apiData == s.apiData && t.isPlaying == s.isPlaying && t.options == s.options
    ensures api.None? ==> t == s
    ensures api.Some? ==> t.mapFrames == Observed(api.value, kind) + Forecast(api.value, kind)
    ensures api.Some? && Chosen(api.value, kind) == NoBranch ==>
              t.mapFrames == [] && t.animationPosition == s.animationPosition
    ensures api.Some? && Chosen(api.value, kind) != NoBranch ==>
              t.animationPosition == |Observed(api.value, kind)| - 1
  {
    match api
    case None => s
    case Some(p) =>
      var q := Sequence(p, kind);
      s.(mapFrames := q.frames, animationPosition := q.start.GetOr(s.animationPosition))
  }

  /** The effect of one handler. Fetched data is sequenced with the kind currently selected. */
  function Step(s: State, e: Event): State {
    match e
    case OnDataArrived(api) =>
      Initialized(s.(apiData := Some(api)), Some(api), s.options.kind)
    case OnUpdateOptions(patch) =>
      var merged := s.(options := Merge(s.options, patch));
      if s.apiData.Some? then Initialized(merged, s.apiData, EffectiveKind(s.options, patch)) else merged
    case OnPlayStop => s.(isPlaying := !s.isPlaying)
    case OnPrevFrame => s.(animationPosition := s.animationPosition - 1)
    case OnNextFrame => s.(animationPosition := s.animationPosition + 1)
  }

  /** The state after the handlers in `es` run one after another. */
  function Run(s: State, es: seq<Event>): State
    decreases |es|
  {
    if es == [] then s else Run(Step(s, es[0]), es[1..])
  }

  /** The position indexes a frame of the current list. */
  predicate InRange(s: State) {
    0 <= s.animationPosition < |s.mapFrames|
  }

  /** The frame list is the one the sequencer gives for the held data and kind (empty before data arrives). */
  predicate Synced(s: State) {
    match s.apiData
    case None => s.mapFrames == []
    case Some(api) => s.mapFrames == Sequence(api, s.options.kind).frames
  }

  /** What every reachable state satisfies. */
  predicate Consistent(s: State) {
    Synced(s) && s.options.colorScheme == PinnedColorScheme
  }

  /** The controls only ever name a non-empty kind ("radar", "satellite" or the current one). */
  predicate FromControls(e: Event) {
    e.OnUpdateOptions? ==> e.patch.kind != Some("")
  }

  predicate IsPlayback(e: Event) {
    e.OnPlayStop? || e.OnPrevFrame? || e.OnNextFrame?
  }

  /** How often `e` occurs in `es`. */
  function Occurrences(es: seq<Event>, e: Event): (n: nat)
    ensures n <= |es|
    ensures e !in es ==> n == 0
  {
    if es == [] then 0 else (if es[0] == e then 1 else 0) + Occurrences(es[1..], e)
  }

  /**
   * The view as an object: one field per state cell, one method per handler.
   * Each method's effect is the matching `Step`.
   */
  class WeatherMapClient {
    var apiData: Option<Payload>
    var mapFrames: seq<Frame>
    var animationPosition: int
    var isPlaying: bool
    var options: Options

    function Snapshot(): State
      reads this
    {
      State(apiData, mapFrames, animationPosition, isPlaying, options)
    }

    constructor ()
      ensures Snapshot() == InitialState()
      ensures Consistent(Snapshot())
    {
      apiData := None;
      mapFrames := [];
      animationPosition := 0;
      isPlaying := false;
      options := InitialOptions();
    }

    /** `initialize`: re-sequences the frames of `api` for `kind`. */
    method Initialize(api: Option<Payload>, kind: string)
      modifies this
      ensures Snapshot() == Initialized(old(Snapshot()), api, kind)
      ensures api.None? ==> mapFrames == old(mapFrames) && animationPosition == old(animationPosition)
      ensures api.Some? && kind == SatelliteKind && api.value.satInfrared.Some? ==>
                mapFrames == api.value.satInfrared.value && animationPosition == |mapFrames| - 1
    {
      if api.None? {
        return;
      }
      var p := api.value;
      var frames: seq<Frame> := [];
      if kind == SatelliteKind && p.satInfrared.Some? {
        frames := p.satInfrared.value;
        animationPosition := |frames| - 1;
      } else if p.radarPast.Some? {
        frames := p.radarPast.value;
        if p.radarNowcast.Some? {
          frames := frames + p.radarNowcast.value;
        }
        animationPosition := |p.radarPast.value| - 1;
      }
      mapFrames := frames;
    }

    /** The fetch callback: stores the payload and sequences it with the selected kind. */
    method DataArrived(api: Payload)
      modifies this
      ensures Snapshot() == Step(old(Snapshot()), OnDataArrived(api))
      ensures apiData == Some(api) && Synced(Snapshot())
    {
      apiData := Some(api);
      Initialize(apiData, options.kind);
    }

    /** `handleUpdateOptions`: merges the patch and re-sequences when data is held. */
    method UpdateOptions(patch: OptionsPatch)
      modifies this
      ensures Snapshot() == Step(old(Snapshot()), OnUpdateOptions(patch))
      ensures options == Merge(old(options), patch) && options.colorScheme == PinnedColorScheme
      ensures old(apiData).None? ==> mapFrames == old(mapFrames) && animationPosition == old(animationPosition)
      ensures isPlaying == old(isPlaying) && apiData == old(apiData)
    {
      var kind := EffectiveKind(options, patch);
      options := Merge(options, patch);
      if apiData.Some? {
        Initialize(apiData, kind);
      }
    }

    /** The play/stop button: flips playback and touches nothing else. */
    method PlayStop()
      modifies this
      ensures Snapshot() == Step(old(Snapshot()), OnPlayStop)
      ensures isPlaying == !old(isPlaying)
      ensures animationPosition == old(animationPosition) && mapFrames == old(mapFrames)
      ensures options == old(options) && apiData == old(apiData)
    {
      isPlaying := !isPlaying;
    }

    /** The previous-frame button: one step back, without a bounds check. */
    method PrevFrame()
      modifies this
      ensures Snapshot() == Step(old(Snapshot()), OnPrevFrame)
      ensures animationPosition == old(animationPosition) - 1
    {
      animationPosition := animationPosition - 1;
    }

    /** The next-frame button: one step forward, without a bounds check. */
    method NextFrame()
      modifies this
      ensures Snapshot() == Step(old(Snapshot()), OnNextFrame)
      ensures animationPosition == old(animationPosition) + 1
    {
      animationPosition := animationPosition + 1;
    }
  }

  /** Stepping forward from the last frame leaves the list; stepping back from the first does too. */
  lemma SteppingLeavesRange(s: State)
    ensures s.animationPosition == |s.mapFrames| - 1 ==> !InRange(Step(s, OnNextFrame))
    ensures s.animationPosition == 0 ==> !InRange(Step(s, OnPrevFrame))
  {
  }

  /**
   * A run of playback buttons leaves data, frames and options alone, moves
   * the position by the number of "next" presses minus the number of "prev"
   * presses, and leaves playback flipped exactly when play/stop was pressed
   * an odd number of times.
   */
  lemma {:induction false} PlaybackRun(s: State, es: seq<Event>)
    requires forall i :: 0 <= i < |es| ==> IsPlayback(es[i])
    ensures Run(s, es).apiData == s.apiData
    ensures Run(s, es).mapFrames == s.mapFrames
    ensures Run(s, es).options == s.options
    ensures Run(s, es).animationPosition ==
              s.animationPosition + Occurrences(es, OnNextFrame) - Occurrences(es, OnPrevFrame)
    ensures Run(s, es).isPlaying == (s.isPlaying != (Occurrences(es, OnPlayStop) % 2 == 1))
    decreases |es|
  {
    if es != [] {
      PlaybackRun(Step(s, es[0]), es[1..]);
    }
  }

  /** After a run of playback buttons the position indexes a frame exactly when the net step count keeps it inside the list. */
  lemma PlaybackRunInRange(s: State, es: seq<Event>)
    requires forall i :: 0 <= i < |es| ==> IsPlayback(es[i])
    ensures InRange(Run(s, es)) <==>
              0 <= s.animationPosition + Occurrences(es, OnNextFrame) - Occurrences(es, OnPrevFrame) < |s.mapFrames|
  {
    PlaybackRun(s, es);
  }

  /** A run of play/stop presses alone never moves the position. */
  lemma PlayStopRunKeepsPosition(s: State, es: seq<Event>)
    requires forall i :: 0 <= i < |es| ==> IsPlayback(es[i])
    requires OnNextFrame !in es && OnPrevFrame !in es
    ensures Run(s, es).animationPosition == s.animationPosition
  {
    PlaybackRun(s, es);
  }

  /** Each playback press moves the position by at most one frame, so a run of them moves it by at most its length. */
  lemma PlaybackRunDrift(s: State, es: seq<Event>)
    requires forall i :: 0 <= i < |es| ==> IsPlayback(es[i])
    ensures -|es| <= Run(s, es).animationPosition - s.animationPosition <= |es|
  {
    PlaybackRun(s, es);
  }

  /** Every handler the controls can trigger keeps the frames in step with the data and kind, and the colour scheme pinned. */
  lemma StepKeepsConsistent(s: State, e: Event)
    requires Consistent(s) && FromControls(e)
    ensures Consistent(Step(s, e))
  {
    match e
    case OnUpdateOptions(patch) =>
      if s.apiData.Some? {
        EffectiveKindIsMergedKind(s.options, patch);
      }
    case _ =>
  }

  /** Consistency holds after any run of handlers from the controls. */
  lemma {:induction false} RunKeepsConsistent(s: State, es: seq<Event>)
    requires Consistent(s)
    requires forall i :: 0 <= i < |es| ==> FromControls(es[i])
    ensures Consistent(Run(s, es))
    decreases |es|
  {
    if es != [] {
      StepKeepsConsistent(s, es[0]);
      RunKeepsConsistent(Step(s, es[0]), es[1..]);
    }
  }

  /** Every state reachable from mount through the controls is consistent. */
  lemma ReachableIsConsistent(es: seq<Event>)
    requires forall i :: 0 <= i < |es| ==> FromControls(es[i])
    ensures Consistent(Run(InitialState(), es))
  {
    RunKeepsConsistent(InitialState(), es);
  }

  /**
   * Choosing a colour scheme with data loaded keeps the kind and the frames,
   * writes the pinned code instead of the chosen one, does not stop playback,
   * and moves the position back to the last observed frame.
   */
  lemma SchemeChoiceResequences(s: State, scheme: int)
    requires Synced(s) && s.apiData.Some?
    requires s.options.kind != ""
    requires Chosen(s.apiData.value, s.options.kind) != NoBranch
    ensures var t := Step(s, OnUpdateOptions(SchemeChoice(s.options, scheme)));
      && t.options.kind == s.options.kind
      && t.options.colorScheme == PinnedColorScheme
      && t.mapFrames == s.mapFrames
      && t.isPlaying == s.isPlaying
      && t.animationPosition == |Observed(s.apiData.value, s.options.kind)| - 1
  {
  }

  /** Choosing a kind does not stop playback; with data loaded it re-sequences for the new kind. */
  lemma KindChoiceKeepsPlaying(s: State, kind: string)
    requires kind != ""
    ensures var t := Step(s, OnUpdateOptions(KindChoice(s.options, kind)));
      && t.isPlaying == s.isPlaying
      && t.options.kind == kind
      && (s.apiData.Some? ==> t.mapFrames == Sequence(s.apiData.value, kind).frames)
  {
  }

  // ---------------------------------------------------------------------------
  // The fetch callback as written: it is registered once at mount and closes
  // over the options of the first render, so it sequences with the initial
  // kind rather than the one selected when the data arrives.
  // ---------------------------------------------------------------------------

  /** The fetch callback as written: the kind used is the mount-time one. */
  function DataArrivedAsWritten(s: State, api: Payload): (t: State)
    ensures t.apiData == Some(api) && t.options == s.options
    ensures t.mapFrames == Sequence(api, InitialOptions().kind).frames
  {
    Initialized(s.(apiData := Some(api)), Some(api), InitialOptions().kind)
  }

  /**
   * Picking "satellite" before the payload arrives, then receiving a payload
   * with both lists: as written, the view holds kind "satellite" but shows the
   * radar frames.
   */
  lemma StaleKindShowsRadarFrames()
    ensures var s := Step(InitialState(), OnUpdateOptions(KindChoice(InitialOptions(), SatelliteKind)));
      var api := Payload(Some([Frame(0, "past")]), None, Some([Frame(0, "infrared")]));
      var t := DataArrivedAsWritten(s, api);
      && t.options.kind == SatelliteKind
      && t.mapFrames == [Frame(0, "past")]
      && !Synced(t)
  {
    var s := Step(InitialState(), OnUpdateOptions(KindChoice(InitialOptions(), SatelliteKind)));
    var api := Payload(Some([Frame(0, "past")]), None, Some([Frame(0, "infrared")]));
    assert Sequence(api, SatelliteKind).frames == [Frame(0, "infrared")];
    assert Sequence(api, RadarKind).frames == [Frame(0, "past")];
  }

  /** The corrected callback always leaves the frames in step with the selected kind. */
  lemma DataArrivedSyncs(s: State, api: Payload)
    ensures Synced(Step(s, OnDataArrived(api)))
    ensures Step(s, OnDataArrived(api)).mapFrames == Sequence(api, s.options.kind).frames
  {
  }
}

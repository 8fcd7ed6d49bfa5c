/**
 * The rendering options held by the weather map view, and the merge that the
 * view applies when the controls hand it a (partial) options record.
 */
module ViewOptions {
  import opened Wrappers

  /** The options record: data kind, colour-scheme code, tile size, smoothing and snow flags, image extension. */
  datatype Options = Options(
    kind: string,
    colorScheme: int,
    tileSize: int,
    smoothData: int,
    snowColors: int,
    extension: string)

  /** A partial options record: a field is Some when the caller names it. */
  datatype OptionsPatch = OptionsPatch(
    kind: Option<string>,
    colorScheme: Option<int>,
    tileSize: Option<int>,
    smoothData: Option<int>,
    snowColors: Option<int>,
    extension: Option<string>)

  /** The colour-scheme code every options update writes, whatever was asked for. */
  const PinnedColorScheme: int := 2

  /** The options the view starts with. */
  function InitialOptions(): (o: Options)
    ensures o.kind == "radar" && o.colorScheme == PinnedColorScheme
  {
    Options("radar", 2, 256, 1, 1, "png")
  }

  /** The patch the controls send when the user picks a kind: the current options with `kind` replaced. */
  function KindChoice(current: Options, kind: string): OptionsPatch {
    OptionsPatch(Some(kind), Some(current.colorScheme), Some(current.tileSize),
                 Some(current.smoothData), Some(current.snowColors), Some(current.extension))
  }

  /** The patch the controls send when the user picks a colour scheme: the current options with `colorScheme` replaced. */
  function SchemeChoice(current: Options, scheme: int): OptionsPatch {
    OptionsPatch(Some(current.kind), Some(scheme), Some(current.tileSize),
                 Some(current.smoothData), Some(current.snowColors), Some(current.extension))
  }

  /**
   * The options after an update: every field the patch names takes the new
   * value, every other field keeps the old one, and the colour scheme is
   * always the pinned code.
   */
  function Merge(prev: Options, patch: OptionsPatch): (o: Options)
    ensures o.colorScheme == PinnedColorScheme
    ensures o.kind == (if patch.kind.Some? then patch.kind.value else prev.kind)
    ensures o.tileSize == (if patch.tileSize.Some? then patch.tileSize.value else prev.tileSize)
    ensures o.smoothData == (if patch.smoothData.Some? then patch.smoothData.value else prev.smoothData)
    ensures o.snowColors == (if patch.snowColors.Some? then patch.snowColors.value else prev.snowColors)
    ensures o.extension == (if patch.extension.Some? then patch.extension.value else prev.extension)
  {
    Options(
      patch.kind.GetOr(prev.kind),
      PinnedColorScheme,
      patch.tileSize.GetOr(prev.tileSize),
      patch.smoothData.GetOr(prev.smoothData),
      patch.snowColors.GetOr(prev.snowColors),
      patch.extension.GetOr(prev.extension))
  }

  /**
   * The kind the view re-sequences with after an update: the patch's kind when
   * it names a non-empty one, otherwise the kind held before the update.
   */
  function EffectiveKind(prev: Options, patch: OptionsPatch): (k: string)
    ensures k == prev.kind || patch.kind == Some(k)
    ensures k == "" ==> prev.kind == ""
  {
    if patch.kind.Some? && patch.kind.value != "" then patch.kind.value else prev.kind
  }

  /** The kind re-sequenced with is the kind the options hold afterwards, unless the patch names the empty kind. */
  lemma EffectiveKindIsMergedKind(prev: Options, patch: OptionsPatch)
    requires patch.kind != Some("")
    ensures EffectiveKind(prev, patch) == Merge(prev, patch).kind
  {
  }

  /** A patch naming the empty kind stores it, but re-sequencing uses the previous kind. */
  lemma EmptyKindFallsBack(prev: Options, patch: OptionsPatch)
    requires patch.kind == Some("")
    ensures Merge(prev, patch).kind == ""
    ensures EffectiveKind(prev, patch) == prev.kind
  {
  }

  /** Applying the same update twice is the same as applying it once. */
  lemma MergeIdempotent(prev: Options, patch: OptionsPatch)
    ensures Merge(Merge(prev, patch), patch) == Merge(prev, patch)
  {
  }

  /** Whatever colour scheme is chosen, the update keeps every other field and writes the pinned code. */
  lemma SchemeChoiceIsOverwritten(current: Options, scheme: int)
    ensures Merge(current, SchemeChoice(current, scheme)) == current.(colorScheme := PinnedColorScheme)
  {
  }

  /** Choosing a kind changes the kind and pins the colour scheme, and nothing else. */
  lemma KindChoiceChangesKind(current: Options, kind: string)
    ensures Merge(current, KindChoice(current, kind)) == current.(kind := kind, colorScheme := PinnedColorScheme)
  {
  }
}

/**
 * The theme enum of the settings package and its ordinal codec.
 * The store persists a theme as its ordinal, so the declaration order of the
 * three members is part of the on-disk format.
 */
module UserSettings {
  import opened Wrappers

  /** The user's display-mode preference, in declaration order. */
  datatype AppTheme = ModeDay | ModeNight | ModeAuto

  /** `AppTheme.values()`: every member, in declaration order. */
  const Values: seq<AppTheme> := [ModeDay, ModeNight, ModeAuto]

  /** `AppTheme.ordinal`: the position of the member in `Values`. */
  function Ordinal(t: AppTheme): (r: int)
    ensures 0 <= r < |Values| && Values[r] == t
  {
    match t
    case ModeDay => 0
    case ModeNight => 1
    case ModeAuto => 2
  }

  /**
   * `AppTheme.fromOrdinal`: indexes `values()` with the ordinal. Outside
   * 0..2 the index is out of bounds and the call throws; that outcome is `None`.
   */
  function FromOrdinal(ordinal: int): (r: Option<AppTheme>)
    ensures r.Some? <==> 0 <= ordinal < |Values|
    ensures r.Some? ==> Ordinal(r.value) == ordinal
  {
    if 0 <= ordinal < |Values| then Some(Values[ordinal]) else None
  }

  /** The enum has exactly three members, with ordinals Day = 0, Night = 1, Auto = 2. */
  lemma ThreeMembers()
    ensures |Values| == 3
    ensures forall i, j :: 0 <= i < j < |Values| ==> Values[i] != Values[j]
    ensures Ordinal(ModeDay) == 0 && Ordinal(ModeNight) == 1 && Ordinal(ModeAuto) == 2
  {
  }

  /** Two themes share an ordinal only if they are the same theme. */
  lemma OrdinalInjective(s: AppTheme, t: AppTheme)
    ensures Ordinal(s) == Ordinal(t) <==> s == t
  {
  }

  /** Decoding the ordinal of a theme gives that theme back. */
  lemma FromOrdinalOfOrdinal(t: AppTheme)
    ensures FromOrdinal(Ordinal(t)) == Some(t)
  {
  }

  /** Every ordinal in range decodes to the theme with that ordinal. */
  lemma OrdinalOfFromOrdinal(i: int)
    requires 0 <= i < |Values|
    ensures FromOrdinal(i).Some? && Ordinal(FromOrdinal(i).value) == i
  {
  }

  /** Every ordinal outside 0..2 fails to decode. */
  lemma FromOrdinalOutOfRange(i: int)
    requires i < 0 || 3 <= i
    ensures FromOrdinal(i) == None
  {
  }
}

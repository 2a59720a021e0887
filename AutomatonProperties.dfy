/** The immutable snapshot `io.github.yayakm.config.AutomatonProperties`. */
module Properties {
  import opened Lengths

  /** All four fields are final in the source: a datatype value never changes. */
  datatype AutomatonProperties = AutomatonProperties(
    numberOfStates: int,
    isFinite: bool,
    generatedTextExpectedMinSize: int,
    generatedTextExpectedMaxSize: int)

  /** The three-argument constructor: min and max are copied out of the given length. */
  function WithLength(numberOfStates: int, isFinite: bool, length: Range): (p: AutomatonProperties)
    ensures p.numberOfStates == numberOfStates && p.isFinite == isFinite
    ensures p.generatedTextExpectedMinSize == length.min && p.generatedTextExpectedMaxSize == length.max
  {
    AutomatonProperties(numberOfStates, isFinite, length.min, length.max)
  }

  /** The two-argument constructor delegates with the length (0, 0), which the Length constructor accepts. */
  function WithoutLength(numberOfStates: int, isFinite: bool): (p: AutomatonProperties)
    ensures p.numberOfStates == numberOfStates && p.isFinite == isFinite
    ensures p.generatedTextExpectedMinSize == 0 && p.generatedTextExpectedMaxSize == 0
  {
    assert CheckRange(0, 0).Ok?;
    WithLength(numberOfStates, isFinite, Range(0, 0))
  }
}

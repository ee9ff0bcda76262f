/** The configuration handed to the rule engine: one maximum length per
    construct the style checker measures. */
module MaxLengthsRecord {

  /** The seven length categories. */
  datatype Category = ClassLength | ClosureLength | FileLength | FunctionLength
                    | LineLength | NameLength | StructLength

  datatype MaxLengths = MaxLengths(
    maxClassLength: int,
    maxClosureLength: int,
    maxFileLength: int,
    maxFunctionLength: int,
    maxLineLength: int,
    maxNameLength: int,
    maxStructLength: int)
  {
    /** The limit recorded for category `c`. */
    function Get(c: Category): int {
      match c
      case ClassLength => maxClassLength
      case ClosureLength => maxClosureLength
      case FileLength => maxFileLength
      case FunctionLength => maxFunctionLength
      case LineLength => maxLineLength
      case NameLength => maxNameLength
      case StructLength => maxStructLength
    }

    /** The setter for category `c`: records `v` there and leaves every other limit as it was. */
    function Set(c: Category, v: int): (r: MaxLengths)
      ensures r.Get(c) == v
      ensures forall d :: d != c ==> r.Get(d) == Get(d)
    {
      match c
      case ClassLength => this.(maxClassLength := v)
      case ClosureLength => this.(maxClosureLength := v)
      case FileLength => this.(maxFileLength := v)
      case FunctionLength => this.(maxFunctionLength := v)
      case LineLength => this.(maxLineLength := v)
      case NameLength => this.(maxNameLength := v)
      case StructLength => this.(maxStructLength := v)
    }
  }

  /** A freshly created record: every limit 0. */
  const Unset: MaxLengths := MaxLengths(0, 0, 0, 0, 0, 0, 0)
}

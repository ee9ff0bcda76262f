/** The style checker's command-line front end: the option schema, the
    reading of integer thresholds with a default and a fallback, the help
    branch of parsing, and the construction of the max-lengths record. */
module ArgumentParsing {
  import opened Wrappers
  import opened JavaInteger
  import opened Cli
  import opened MaxLengthsRecord

  const HelpShortOpt: string := "h"
  const HelpLongOpt: string := "help"
  const MaxClassLengthOpt: string := "max-class-length"
  const MaxClosureLengthOpt: string := "max-closure-length"
  const MaxFileLengthOpt: string := "max-file-length"
  const MaxFunctionLengthOpt: string := "max-function-length"
  const MaxLineLengthShortOpt: string := "l"
  const MaxLineLengthLongOpt: string := "max-line-length"
  const MaxNameLengthOpt: string := "max-name-length"
  const MaxStructLengthOpt: string := "max-struct-length"

  /** The text read for an integer option that was not supplied, and the
      value used when an option's text is not an int. */
  const DefaultIntArg: string := "0"
  const DefaultIntArgValue: Int32 := 0

  // ---------------------------------------------------------------------
  // The option schema

  /** `help`, short name `h`, no argument. */
  function HelpOption(): (o: OptionDef)
    ensures !o.hasArg
    ensures forall n :: Names(o, n) <==> n == HelpShortOpt || n == HelpLongOpt
  {
    OptionDef(Some(HelpShortOpt), HelpLongOpt, false)
  }

  /** An integer option with a long name only. */
  function IntegerArgumentOption(longOpt: string): (o: OptionDef)
    ensures o.hasArg && o.shortName.None?
    ensures forall n :: Names(o, n) <==> n == longOpt
  {
    OptionDef(None, longOpt, true)
  }

  /** An integer option with both a short and a long name. */
  function ShortIntegerArgumentOption(shortOpt: string, longOpt: string): (o: OptionDef)
    ensures o.hasArg
    ensures forall n :: Names(o, n) <==> n == shortOpt || n == longOpt
  {
    OptionDef(Some(shortOpt), longOpt, true)
  }

  /** The option set, in the order options are added to it. */
  const Schema: seq<OptionDef> := [
    HelpOption(),
    IntegerArgumentOption(MaxClassLengthOpt),
    IntegerArgumentOption(MaxClosureLengthOpt),
    IntegerArgumentOption(MaxFileLengthOpt),
    IntegerArgumentOption(MaxFunctionLengthOpt),
    ShortIntegerArgumentOption(MaxLineLengthShortOpt, MaxLineLengthLongOpt),
    IntegerArgumentOption(MaxNameLengthOpt),
    IntegerArgumentOption(MaxStructLengthOpt)
  ]

  /** The name each record field is read under. */
  function OptionFor(c: Category): string {
    match c
    case ClassLength => MaxClassLengthOpt
    case ClosureLength => MaxClosureLengthOpt
    case FileLength => MaxFileLengthOpt
    case FunctionLength => MaxFunctionLengthOpt
    case LineLength => MaxLineLengthLongOpt
    case NameLength => MaxNameLengthOpt
    case StructLength => MaxStructLengthOpt
  }

  /** The schema entry for category `c`. */
  function LengthOption(c: Category): (o: OptionDef)
    ensures o in Schema && o.hasArg && Names(o, OptionFor(c))
  {
    if c == LineLength then Schema[5]
    else IntegerArgumentOption(OptionFor(c))
  }

  /** Eight options with pairwise distinct long names. */
  lemma SchemaLongNamesDistinct()
    ensures |Schema| == 8
    ensures forall i, j :: 0 <= i < j < |Schema| ==> Schema[i].longName != Schema[j].longName
  {
  }

  /** Every max-*-length option takes an argument and help does not. */
  lemma SchemaArguments()
    ensures forall i :: 0 <= i < |Schema| ==> (Schema[i].hasArg <==> Schema[i].longName != HelpLongOpt)
  {
  }

  /** Only help and max-line-length have short names, h and l. */
  lemma SchemaShortNames()
    ensures forall i :: 0 <= i < |Schema| ==>
              Schema[i].shortName == (if Schema[i].longName == HelpLongOpt then Some(HelpShortOpt)
                                      else if Schema[i].longName == MaxLineLengthLongOpt then Some(MaxLineLengthShortOpt)
                                      else None)
  {
  }

  /** No name, short or long, is shared by two options, so every written
      name stands for at most one of them. */
  lemma SchemaNamesUnambiguous(name: string)
    ensures forall i, j :: 0 <= i < |Schema| && 0 <= j < |Schema| && Names(Schema[i], name) && Names(Schema[j], name) ==> i == j
  {
  }

  /** Each of the seven categories is read under its own option, and no
      other category's option answers to that name. */
  lemma LengthOptionsDistinct(c: Category, d: Category)
    requires c != d
    ensures !Names(LengthOption(d), OptionFor(c))
    ensures LengthOption(c) != LengthOption(d)
  {
  }

  // ---------------------------------------------------------------------
  // Reading one integer option

  /** getIntegerArgument(opt): the text supplied for `opt` ("0" when none),
      read by Integer.parseInt; 0 when that throws NumberFormatException. */
  function IntegerArgument(cmd: CommandLine, opt: string): (r: Int32)
    ensures r == DefaultIntArgValue ||
            (HasOption(cmd, opt) && ParseInt(GetOptionValue(cmd, opt, DefaultIntArg)) == Success(r))
  {
    match ParseInt(GetOptionValue(cmd, opt, DefaultIntArg))
    case Success(v) => v
    case Failure(_) => DefaultIntArgValue
  }

  /** An option that was not supplied reads as 0. */
  lemma AbsentOptionIsZero(cmd: CommandLine, opt: string)
    requires !HasOption(cmd, opt)
    ensures IntegerArgument(cmd, opt) == 0
  {
    assert DigitsValue(DefaultIntArg) == 0 by {
      assert DefaultIntArg[..0] == [];
    }
  }

  /** Decimal text for a value in int range, supplied first for a category's
      option, is read as exactly that value. */
  lemma SuppliedValueIsExact(pre: CommandLine, c: Category, s: string, post: CommandLine)
    requires !HasOption(pre, OptionFor(c))
    requires IsDecimal(s) && MinValue <= DecimalValue(s) <= MaxValue
    ensures IntegerArgument(pre + [ParsedOption(LengthOption(c), Some(s))] + post, OptionFor(c)) == DecimalValue(s)
  {
    GetOptionValueFirst(pre, ParsedOption(LengthOption(c), Some(s)), post, OptionFor(c), DefaultIntArg);
  }

  /** Text that Integer.parseInt rejects, supplied first for a category's
      option, is read as 0 and the reading does not fail. */
  lemma MalformedValueIsZero(pre: CommandLine, c: Category, s: string, post: CommandLine)
    requires !HasOption(pre, OptionFor(c))
    requires !IsDecimal(s) || !(MinValue <= DecimalValue(s) <= MaxValue)
    ensures IntegerArgument(pre + [ParsedOption(LengthOption(c), Some(s))] + post, OptionFor(c)) == DefaultIntArgValue
  {
    GetOptionValueFirst(pre, ParsedOption(LengthOption(c), Some(s)), post, OptionFor(c), DefaultIntArg);
  }

  /** A value supplied for another category, well formed or not and wherever
      it stands, leaves the reading of category `c` unchanged. */
  lemma FieldIgnoresOtherOptions(pre: CommandLine, d: Category, v: Option<string>, post: CommandLine, c: Category)
    requires c != d
    ensures IntegerArgument(pre + [ParsedOption(LengthOption(d), v)] + post, OptionFor(c))
         == IntegerArgument(pre + post, OptionFor(c))
  {
    LengthOptionsDistinct(c, d);
    GetOptionValueSkipsOthers(pre, ParsedOption(LengthOption(d), v), post, OptionFor(c), DefaultIntArg);
  }

  /** A command line whose processed options all come from the schema. */
  predicate FromSchema(cmd: CommandLine) {
    forall i :: 0 <= i < |cmd| ==> cmd[i].option in Schema
  }

  /** Resolving the written names `l` and `max-line-length` against the
      schema gives the same entry, the line-length option. */
  lemma LineLengthNamesResolveAlike()
    ensures Lookup(Schema, MaxLineLengthShortOpt) == Some(LengthOption(LineLength))
    ensures Lookup(Schema, MaxLineLengthLongOpt) == Some(LengthOption(LineLength))
  {
    ResolvesToUniqueEntry(MaxLineLengthShortOpt, 5);
    ResolvesToUniqueEntry(MaxLineLengthLongOpt, 5);
  }

  /** A name that schema entry k answers to resolves to entry k. */
  lemma ResolvesToUniqueEntry(name: string, k: nat)
    requires k < |Schema| && Names(Schema[k], name)
    ensures Lookup(Schema, name) == Some(Schema[k])
  {
    var r := Lookup(Schema, name);
    assert r.Some?;
    var j :| 0 <= j < |Schema| && Schema[j] == r.value;
    SchemaNamesUnambiguous(name);
  }

  /** The line limit reads the same under `l` and under `max-line-length`. */
  lemma LineLengthAlias(cmd: CommandLine)
    requires FromSchema(cmd)
    ensures IntegerArgument(cmd, MaxLineLengthShortOpt) == IntegerArgument(cmd, MaxLineLengthLongOpt)
  {
    forall i | 0 <= i < |cmd|
      ensures Names(cmd[i].option, MaxLineLengthShortOpt) <==> Names(cmd[i].option, MaxLineLengthLongOpt)
    {
      assert cmd[i].option in Schema;
    }
    GetOptionValueOfSynonyms(cmd, MaxLineLengthShortOpt, MaxLineLengthLongOpt, DefaultIntArg);
  }

  /** The two values the examples below supply. */
  lemma ExampleTexts()
    ensures ParseInt("120") == Success(120) && ParseInt("80") == Success(80)
    ensures ParseInt("abc").Failure?
  {
    assert DigitsValue("120") == 120 by {
      assert "120"[..2] == "12" && "12"[..1] == "1";
    }
    assert DigitsValue("80") == 80 by {
      assert "80"[..1] == "8";
    }
    assert !IsDigit("abc"[0]);
  }

  /** `--max-class-length 120 --max-line-length 80`, as parsed. */
  const ClassAndLine: CommandLine := [ParsedOption(LengthOption(ClassLength), Some("120")),
                                      ParsedOption(LengthOption(LineLength), Some("80"))]

  /** `--max-class-length 120 --max-line-length 80`: class limit 120. */
  lemma ClassAndLineReadsClass()
    ensures IntegerArgument(ClassAndLine, MaxClassLengthOpt) == 120
  {
    ExampleTexts();
    assert ClassAndLine == [] + [ClassAndLine[0]] + [ClassAndLine[1]];
    SuppliedValueIsExact([], ClassLength, "120", [ClassAndLine[1]]);
  }

  /** `--max-class-length 120 --max-line-length 80`: line limit 80. */
  lemma ClassAndLineReadsLine()
    ensures IntegerArgument(ClassAndLine, MaxLineLengthLongOpt) == 80
  {
    ExampleTexts();
    assert ClassAndLine == [ClassAndLine[0]] + [ClassAndLine[1]] + [];
    SuppliedValueIsExact([ClassAndLine[0]], LineLength, "80", []);
  }

  /** With no options at all, every one of the seven limits reads as 0. */
  lemma NoOptionsAllZero(c: Category)
    ensures IntegerArgument([], OptionFor(c)) == 0
  {
    AbsentOptionIsZero([], OptionFor(c));
  }

  /** `--max-class-length 120 --max-line-length 80`: every other limit is 0,
      as it is when no option is given. */
  lemma ClassAndLineOthersZero(c: Category)
    requires c != ClassLength && c != LineLength
    ensures IntegerArgument(ClassAndLine, OptionFor(c)) == 0
    ensures IntegerArgument([], OptionFor(c)) == 0
  {
    LengthOptionsDistinct(c, ClassLength);
    LengthOptionsDistinct(c, LineLength);
    assert !HasOption(ClassAndLine, OptionFor(c));
    AbsentOptionIsZero(ClassAndLine, OptionFor(c));
    AbsentOptionIsZero([], OptionFor(c));
  }

  /** `--max-class-length 120 -l abc`, as parsed. */
  const ClassAndBadLine: CommandLine := [ParsedOption(LengthOption(ClassLength), Some("120")),
                                         ParsedOption(LengthOption(LineLength), Some("abc"))]

  /** `--max-class-length 120 -l abc`: the malformed line limit reads as 0. */
  lemma BadLineIsZero()
    ensures IntegerArgument(ClassAndBadLine, MaxLineLengthLongOpt) == 0
  {
    ExampleTexts();
    assert ClassAndBadLine == [ClassAndBadLine[0]] + [ClassAndBadLine[1]] + [];
    MalformedValueIsZero([ClassAndBadLine[0]], LineLength, "abc", []);
  }

  /** `--max-class-length 120 -l abc`: the class limit given beside the
      malformed one still reads as 120. */
  lemma BadLineKeepsClass()
    ensures IntegerArgument(ClassAndBadLine, MaxClassLengthOpt) == 120
  {
    ExampleTexts();
    assert ClassAndBadLine == [] + [ClassAndBadLine[0]] + [ClassAndBadLine[1]];
    SuppliedValueIsExact([], ClassLength, "120", [ClassAndBadLine[1]]);
  }

  // ---------------------------------------------------------------------
  // The help branch of parseCommandLine

  /** What parseCommandLine leads to: help printed and the process ended with
      status 0, the parsed command line returned, or a ParseException thrown
      by the parser. */
  datatype Invocation = HelpRequested | Parsed(cmd: CommandLine) | SyntaxError(message: string)

  /** The branch taken once the command line is parsed. */
  function HelpBranch(cmd: CommandLine): (r: Invocation)
    ensures r == HelpRequested || r == Parsed(cmd)
  {
    if HasOption(cmd, HelpShortOpt) then HelpRequested else Parsed(cmd)
  }

  /** Help, supplied anywhere and under either name, wins over every other option. */
  lemma HelpAnywhere(cmd: CommandLine, i: nat)
    requires i < |cmd| && cmd[i].option == HelpOption()
    ensures HelpBranch(cmd) == HelpRequested
  {
    assert Names(cmd[i].option, HelpShortOpt);
  }

  /** Without help, the parsed command line comes back unchanged. */
  lemma NoHelpPassesThrough(cmd: CommandLine)
    requires FromSchema(cmd)
    requires forall i :: 0 <= i < |cmd| ==> cmd[i].option != HelpOption()
    ensures HelpBranch(cmd) == Parsed(cmd)
  {
  }

  // ---------------------------------------------------------------------
  // The parser object

  class ArgumentParser {
    const args: seq<string>
    /** The option set; empty until addOptions runs. */
    var options: seq<OptionDef>
    /** The parsed command line; None until parseCommandLine has parsed one. */
    var cmd: Option<CommandLine>

    constructor (args: seq<string>)
      ensures this.args == args && options == [] && cmd == None
    {
      this.args := args;
      options := [];
      cmd := None;
    }

    /** addOptions: builds the eight options and adds them one at a time. */
    method AddOptions()
      modifies this
      ensures options == Schema && cmd == old(cmd)
    {
      var help := HelpOption();
      var maxClassLength := IntegerArgumentOption(MaxClassLengthOpt);
      var maxClosureLength := IntegerArgumentOption(MaxClosureLengthOpt);
      var maxFileLength := IntegerArgumentOption(MaxFileLengthOpt);
      var maxFunctionLength := IntegerArgumentOption(MaxFunctionLengthOpt);
      var maxLineLength := ShortIntegerArgumentOption(MaxLineLengthShortOpt, MaxLineLengthLongOpt);
      var maxNameLength := IntegerArgumentOption(MaxNameLengthOpt);
      var maxStructLength := IntegerArgumentOption(MaxStructLengthOpt);

      options := [];
      options := options + [help];
      options := options + [maxClassLength];
      options := options + [maxClosureLength];
      options := options + [maxFileLength];
      options := options + [maxFunctionLength];
      options := options + [maxLineLength];
      options := options + [maxNameLength];
      options := options + [maxStructLength];
    }

    /** parseCommandLine: adds the options, parses `args` against them with
        `parse` (the library's parser), keeps the result in `cmd`, and takes
        the help branch when help was given. */
    method ParseCommandLine(parse: (seq<OptionDef>, seq<string>) -> Result<CommandLine, string>)
      returns (r: Invocation)
      modifies this
      ensures options == Schema
      ensures parse(Schema, args).Failure? ==>
                r == SyntaxError(parse(Schema, args).error) && cmd == old(cmd)
      ensures parse(Schema, args).Success? ==>
                cmd == Some(parse(Schema, args).value) && r == HelpBranch(parse(Schema, args).value)
    {
      AddOptions();
      var parsed := parse(options, args);
      if parsed.Failure? {
        return SyntaxError(parsed.error);
      }
      cmd := Some(parsed.value);
      if HasOption(parsed.value, HelpShortOpt) {
        return HelpRequested;
      }
      return Parsed(parsed.value);
    }

    /** parseMaxLengths: a new record with each of the seven limits set, one
        setter call per category, from that category's own option. */
    method ParseMaxLengths() returns (m: MaxLengths)
      requires cmd.Some?
      ensures forall c :: m.Get(c) == IntegerArgument(cmd.value, OptionFor(c))
      ensures cmd.value == [] ==> m == Unset
    {
      var command := cmd.value;
      m := Unset;
      m := m.Set(ClassLength, IntegerArgument(command, MaxClassLengthOpt));
      m := m.Set(ClosureLength, IntegerArgument(command, MaxClosureLengthOpt));
      m := m.Set(FileLength, IntegerArgument(command, MaxFileLengthOpt));
      m := m.Set(FunctionLength, IntegerArgument(command, MaxFunctionLengthOpt));
      m := m.Set(LineLength, IntegerArgument(command, MaxLineLengthLongOpt));
      m := m.Set(NameLength, IntegerArgument(command, MaxNameLengthOpt));
      m := m.Set(StructLength, IntegerArgument(command, MaxStructLengthOpt));
      if command == [] {
        forall c ensures m.Get(c) == 0 {
          NoOptionsAllZero(c);
        }
      }
    }
  }
}

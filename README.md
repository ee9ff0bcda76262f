# Tailor command-line front end, modelled in Dafny

Tailor is a style checker for Swift. Its `ArgumentParser` turns the
process arguments into a configuration for the rule engine. It declares
eight options: `--help`/`-h`, and seven `--max-*-length` thresholds
(class, closure, file, function, line, name, struct), of which the line
limit also answers to `-l`. It parses the arguments with Apache Commons
CLI. When help was asked for, it prints usage and exits with status 0.
Otherwise it reads each threshold as a Java `int`. An absent option reads
as the text `"0"`. Text that `Integer.parseInt` rejects reads as 0: a
diagnostic is printed and the other thresholds are still read.

Modules:

- `Wrappers` (`wrappers.dfy`): `Option` and `Result`.
- `JavaInteger` (`java_integer.dfy`): `Integer.parseInt(String)` as the
  Java SE API defines it. The text is an optional single `+` or `-`
  followed by one or more decimal digits, and its value must lie in
  [-2^31, 2^31-1]; anything else raises `NumberFormatException`. Also
  `Integer.toString(int)` as the reference inverse, with round-trip
  lemmas.
- `Cli` (`cli.dfy`): the behaviour of Commons CLI that the parser relies
  on. An option definition has a short name, a long name and a has-argument
  flag. The parsed command line is the ordered list of processed options,
  each carrying its definition and value. `hasOption` and `getOptionValue`
  accept either name of an option, and the first value supplied wins.
  `Options.getOption` resolves a written name.
- `MaxLengthsRecord` (`max_lengths.dfy`): the seven-field `MaxLengths`
  record with a getter and a setter per category.
- `ArgumentParsing` (`argument_parser.dfy`): the option names and
  defaults, the option schema, `getIntegerArgument`, the help branch, and
  the `ArgumentParser` class with its `args`, `options` and `cmd` fields.

## Model

| member | source | states |
|---|---|---|
| `JavaInteger.ParseInt` | src/main/java/com/sleekbyte/tailor/utils/ArgumentParser.java:96 | succeeds exactly for an optional sign followed by one or more digits whose value lies in the int range, with that value; a failure names the rejected input |
| `JavaInteger.ParseIntToString` | src/main/java/com/sleekbyte/tailor/utils/ArgumentParser.java:96 | every int, written the way `Integer.toString` writes it, parses back to itself, and that text is canonical |
| `JavaInteger.ToStringOfParseInt` | src/main/java/com/sleekbyte/tailor/utils/ArgumentParser.java:96 | every canonical decimal text that parses is exactly `Integer.toString` of its value, so the two are inverse on canonical text |
| `JavaInteger.LeadingZeroIgnored` | src/main/java/com/sleekbyte/tailor/utils/ArgumentParser.java:96 | leading zeros after an optional sign change neither acceptance nor value |
| `JavaInteger.PlusSignIgnored` | src/main/java/com/sleekbyte/tailor/utils/ArgumentParser.java:96 | a leading `+` is accepted and does not change the value |
| `JavaInteger.MalformedTextRejected` | src/main/java/com/sleekbyte/tailor/utils/ArgumentParser.java:96-97 | `""`, `+`, `-`, `+-1`, `--1`, `abc`, `12a`, `" 1"`, `"1 "` all raise NumberFormatException |
| `JavaInteger.UpperRangeEdge` | src/main/java/com/sleekbyte/tailor/utils/ArgumentParser.java:96-97 | `2147483647` (Integer.MAX_VALUE) parses to itself; `2147483648` is rejected |
| `JavaInteger.LowerRangeEdge` | src/main/java/com/sleekbyte/tailor/utils/ArgumentParser.java:96-97 | `-2147483648` (Integer.MIN_VALUE) parses to itself; `-2147483649` is rejected |
| `Cli.GetOptionValue` | src/main/java/com/sleekbyte/tailor/utils/ArgumentParser.java:96 | an option never supplied yields the default; otherwise the result is the default or a value actually supplied for that option |
| `Cli.GetOptionValueFirst` | src/main/java/com/sleekbyte/tailor/utils/ArgumentParser.java:96 | the first option answering to the name supplies the value, whatever follows it |
| `Cli.HasOption` | src/main/java/com/sleekbyte/tailor/utils/ArgumentParser.java:38 | searching the processed options in order finds one exactly when some option answers to the name, short or long |
| `Cli.Lookup` | src/main/java/com/sleekbyte/tailor/utils/ArgumentParser.java:37 | a written name resolves to an option of the set that answers to it, and to none exactly when no option answers to it |
| `MaxLengthsRecord.MaxLengths.Set` | src/main/java/com/sleekbyte/tailor/utils/ArgumentParser.java:51-57 | a setter records its value in its own field and leaves the six others unchanged |
| `ArgumentParsing.LengthOption` | src/main/java/com/sleekbyte/tailor/utils/ArgumentParser.java:51-57 | each field is read under a name of a schema option that takes an argument |
| `ArgumentParsing.HelpOption` | src/main/java/com/sleekbyte/tailor/utils/ArgumentParser.java:62-65 | the help option takes no argument and answers to exactly `h` and `help` |
| `ArgumentParsing.IntegerArgumentOption` | src/main/java/com/sleekbyte/tailor/utils/ArgumentParser.java:90-92 | an option built from a long name alone takes an argument, has no short name and answers to exactly that long name |
| `ArgumentParsing.ShortIntegerArgumentOption` | src/main/java/com/sleekbyte/tailor/utils/ArgumentParser.java:86-88 | an option built from a short and a long name takes an argument and answers to exactly those two names |
| `ArgumentParsing.SchemaLongNamesDistinct` | src/main/java/com/sleekbyte/tailor/utils/ArgumentParser.java:61-92 | the schema has exactly eight options, with pairwise distinct long names |
| `ArgumentParsing.SchemaArguments` | src/main/java/com/sleekbyte/tailor/utils/ArgumentParser.java:61-92 | an option takes an argument exactly when it is not `help`, so every `max-*-length` option takes one |
| `ArgumentParsing.SchemaShortNames` | src/main/java/com/sleekbyte/tailor/utils/ArgumentParser.java:61-92 | only `help` (short name `h`) and `max-line-length` (short name `l`) have short names |
| `ArgumentParsing.SchemaNamesUnambiguous` | src/main/java/com/sleekbyte/tailor/utils/ArgumentParser.java:14-23 | no short or long name is shared by two options |
| `ArgumentParsing.LengthOptionsDistinct` | src/main/java/com/sleekbyte/tailor/utils/ArgumentParser.java:51-57 | distinct fields are read from distinct options, and no field's option answers to another field's name |
| `ArgumentParsing.IntegerArgument` | src/main/java/com/sleekbyte/tailor/utils/ArgumentParser.java:94-101 | the result is 0 or the value that `parseInt` gives for text actually supplied for the option; it never fails |
| `ArgumentParsing.AbsentOptionIsZero` | src/main/java/com/sleekbyte/tailor/utils/ArgumentParser.java:96 | an option not supplied reads through the default text `"0"` as 0 |
| `ArgumentParsing.SuppliedValueIsExact` | src/main/java/com/sleekbyte/tailor/utils/ArgumentParser.java:96 | decimal text in int range, supplied first for an option, reads as exactly its value, whatever follows |
| `ArgumentParsing.MalformedValueIsZero` | src/main/java/com/sleekbyte/tailor/utils/ArgumentParser.java:97-100 | text that is not decimal or is out of int range, supplied first for an option, reads as 0 |
| `ArgumentParsing.FieldIgnoresOtherOptions` | src/main/java/com/sleekbyte/tailor/utils/ArgumentParser.java:49-59 | adding any value for another category's option, anywhere in the command line, leaves a field's reading unchanged |
| `ArgumentParsing.ClassAndLineReadsClass` | src/main/java/com/sleekbyte/tailor/utils/ArgumentParser.java:51 | `--max-class-length 120 --max-line-length 80` reads a class limit of 120 |
| `ArgumentParsing.ClassAndLineReadsLine` | src/main/java/com/sleekbyte/tailor/utils/ArgumentParser.java:55 | `--max-class-length 120 --max-line-length 80` reads a line limit of 80 |
| `ArgumentParsing.ClassAndLineOthersZero` | src/main/java/com/sleekbyte/tailor/utils/ArgumentParser.java:49-59 | `--max-class-length 120 --max-line-length 80` reads 0 for the five other limits |
| `ArgumentParsing.NoOptionsAllZero` | src/main/java/com/sleekbyte/tailor/utils/ArgumentParser.java:49-59 | with no options, each of the seven limits reads 0 |
| `ArgumentParsing.BadLineIsZero` | src/main/java/com/sleekbyte/tailor/utils/ArgumentParser.java:94-101 | `--max-class-length 120 -l abc` reads a line limit of 0 and does not fail |
| `ArgumentParsing.BadLineKeepsClass` | src/main/java/com/sleekbyte/tailor/utils/ArgumentParser.java:49-59 | `--max-class-length 120 -l abc` still reads a class limit of 120 |
| `ArgumentParsing.LineLengthNamesResolveAlike` | src/main/java/com/sleekbyte/tailor/utils/ArgumentParser.java:70-71 | `l` and `max-line-length` both resolve to the line-length option |
| `ArgumentParsing.LineLengthAlias` | src/main/java/com/sleekbyte/tailor/utils/ArgumentParser.java:55 | on any command line built from the schema, reading under `l` or `max-line-length` gives the same value |
| `ArgumentParsing.HelpBranch` | src/main/java/com/sleekbyte/tailor/utils/ArgumentParser.java:38-42 | the outcome is help or the parsed command line, unaltered |
| `ArgumentParsing.HelpAnywhere` | src/main/java/com/sleekbyte/tailor/utils/ArgumentParser.java:38-41 | help given anywhere, beside any other options, ends in the help outcome |
| `ArgumentParsing.NoHelpPassesThrough` | src/main/java/com/sleekbyte/tailor/utils/ArgumentParser.java:38-42 | without help, the parsed command line is returned unchanged |
| `ArgumentParsing.ArgumentParser.constructor` | src/main/java/com/sleekbyte/tailor/utils/ArgumentParser.java:31-33 | keeps the arguments; no option set and no command line yet |
| `ArgumentParsing.ArgumentParser.AddOptions` | src/main/java/com/sleekbyte/tailor/utils/ArgumentParser.java:61-84 | the option set becomes the eight-option schema, in the order the options are added |
| `ArgumentParsing.ArgumentParser.ParseCommandLine` | src/main/java/com/sleekbyte/tailor/utils/ArgumentParser.java:35-43 | the option set is the schema; a parse failure propagates and leaves `cmd` as it was; otherwise `cmd` holds the parse and the help branch decides the outcome |
| `ArgumentParsing.ArgumentParser.ParseMaxLengths` | src/main/java/com/sleekbyte/tailor/utils/ArgumentParser.java:49-59 | given a parsed command line, every one of the seven fields equals the integer reading of its own option; with no options the record is all zeros |

The `-l` / `--max-line-length` equivalence rests on two facts.
`LineLengthNamesResolveAlike` proves that both written names resolve to the
same schema entry. A processed option records that entry, not the name
the user wrote. The link between them is the library parser, which is a
parameter of `ParseCommandLine` and is not tied to `Cli.Lookup` in the
proofs. `LineLengthAlias` adds that on any command line built from the
schema, reading under `l` or under `max-line-length` gives the same
value. The source itself reads only under `max-line-length` (line 55).

## Left out

- Help text: `printHelp` and `HelpFormatter` produce the usage text, and the option descriptions come from `Messages`. Output formatting in a foreign library is not modelled, and `Messages` is not part of this model.
- The `System.err` diagnostic for a malformed value is not modelled.
- `System.exit(0)` is not modelled. The `HelpRequested` outcome stands for "help printed, process ended with status 0".
- `DefaultParser.parse` is a parameter of `ParseCommandLine`. How raw tokens are matched against the schema is not modelled. That includes unrecognised options, missing values and unique-prefix matching of long options. Its result, a failure message or a command line, is taken as given.
- `Cli.Lookup` models Commons CLI's option set as a list in insertion order. The library keeps maps, where a later option with the same key replaces an earlier one; the lookup returns the last match so that it agrees.
- `JavaInteger.ParseInt` accepts only the ASCII digits `0`..`9`. The JDK also accepts other Unicode decimal digits.
- `MaxLengths` is a plain seven-field record whose fields start at 0. The class itself is not part of this model. Every field is set by `ParseMaxLengths`, so the starting values do not show in the result.
- Java `null` arguments are not modelled. The argument array and its strings are taken to be present.

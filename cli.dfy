/** The part of Apache Commons CLI's behaviour that the argument parser
    relies on: option definitions, the command line the parser produces
    (an ordered list of processed options, each carrying its definition and
    the value supplied for it), the two queries made on it, and the
    resolution of a written option name against the option set. */
module Cli {
  import opened Wrappers

  /** An option definition: short name (absent when the option is built
      without one), long name, and whether it takes an argument.
      The description is not modelled. */
  datatype OptionDef = OptionDef(shortName: Option<string>, longName: string, hasArg: bool)

  /** `name` is the option's short name or its long name. */
  predicate Names(o: OptionDef, name: string) {
    o.shortName == Some(name) || o.longName == name
  }

  /** One processed option: its definition and the value supplied for it. */
  datatype ParsedOption = ParsedOption(option: OptionDef, value: Option<string>)

  /** The parsed command line, options in the order they were supplied. */
  type CommandLine = seq<ParsedOption>

  /** CommandLine.hasOption(name): searching the processed options in order
      finds one that answers to `name`. */
  predicate HasOption(cmd: CommandLine, name: string): (b: bool)
    ensures b <==> exists i :: 0 <= i < |cmd| && Names(cmd[i].option, name)
    decreases |cmd|
  {
    if cmd == [] then false
    else if Names(cmd[0].option, name) then true
    else
      var b := HasOption(cmd[1..], name);
      assert forall i :: 0 <= i < |cmd| - 1 ==> cmd[1..][i] == cmd[i + 1];
      b
  }

  /** CommandLine.getOptionValue(name, default): the first value supplied for
      an option answering to `name`, or `default` when there is none. */
  function GetOptionValue(cmd: CommandLine, name: string, default: string): (r: string)
    ensures !HasOption(cmd, name) ==> r == default
    ensures r == default || exists i :: 0 <= i < |cmd| && Names(cmd[i].option, name) && cmd[i].value == Some(r)
  {
    if cmd == [] then default
    else if Names(cmd[0].option, name) && cmd[0].value.Some? then cmd[0].value.value
    else
      var r := GetOptionValue(cmd[1..], name, default);
      assert forall i :: 0 <= i < |cmd| - 1 ==> cmd[1..][i] == cmd[i + 1];
      r
  }

  /** The key an option set files an option under: its short name, or its
      long name when it has none. */
  function Key(o: OptionDef): string {
    if o.shortName.Some? then o.shortName.value else o.longName
  }

  /** The last option added under key `name` (a later addition replaces an earlier one). */
  function FindByKey(options: seq<OptionDef>, name: string): (r: Option<OptionDef>)
    ensures r.Some? ==> r.value in options && Key(r.value) == name
    ensures r.None? ==> forall o :: o in options ==> Key(o) != name
    decreases |options|
  {
    if options == [] then None
    else if Key(options[|options| - 1]) == name then Some(options[|options| - 1])
    else FindByKey(options[..|options| - 1], name)
  }

  /** The last option added with long name `name`. */
  function FindByLongName(options: seq<OptionDef>, name: string): (r: Option<OptionDef>)
    ensures r.Some? ==> r.value in options && r.value.longName == name
    ensures r.None? ==> forall o :: o in options ==> o.longName != name
    decreases |options|
  {
    if options == [] then None
    else if options[|options| - 1].longName == name then Some(options[|options| - 1])
    else FindByLongName(options[..|options| - 1], name)
  }

  /** Options.getOption(name): the definition a written name stands for,
      looked up by key first and by long name second. */
  function Lookup(options: seq<OptionDef>, name: string): (r: Option<OptionDef>)
    ensures r.Some? ==> r.value in options && Names(r.value, name)
    ensures r.None? <==> forall o :: o in options ==> !Names(o, name)
  {
    match FindByKey(options, name)
    case Some(o) => Some(o)
    case None => FindByLongName(options, name)
  }

  /** An option that is not the one asked for, wherever it stands, does not
      change the value looked up. */
  lemma {:induction false} GetOptionValueSkipsOthers(pre: CommandLine, e: ParsedOption, post: CommandLine,
                                                     name: string, default: string)
    requires !Names(e.option, name)
    ensures GetOptionValue(pre + [e] + post, name, default) == GetOptionValue(pre + post, name, default)
    decreases |pre|
  {
    if pre == [] {
      assert pre + [e] + post == [e] + post && pre + post == post;
      assert ([e] + post)[1..] == post;
    } else {
      GetOptionValueSkipsOthers(pre[1..], e, post, name, default);
      assert (pre + [e] + post)[1..] == pre[1..] + [e] + post;
      assert (pre + post)[1..] == pre[1..] + post;
    }
  }

  /** The first option answering to `name` supplies the value, whatever follows it. */
  lemma {:induction false} GetOptionValueFirst(pre: CommandLine, e: ParsedOption, post: CommandLine,
                                               name: string, default: string)
    requires !HasOption(pre, name)
    requires Names(e.option, name) && e.value.Some?
    ensures GetOptionValue(pre + [e] + post, name, default) == e.value.value
    decreases |pre|
  {
    if pre != [] {
      assert !Names(pre[0].option, name);
      assert !HasOption(pre[1..], name) by {
        forall i | 0 <= i < |pre| - 1 ensures !Names(pre[1..][i].option, name) {
          assert pre[1..][i] == pre[i + 1];
        }
      }
      GetOptionValueFirst(pre[1..], e, post, name, default);
      assert (pre + [e] + post)[1..] == pre[1..] + [e] + post;
    }
  }

  /** Two names that every processed option answers to alike look up the same value. */
  lemma {:induction false} GetOptionValueOfSynonyms(cmd: CommandLine, a: string, b: string, default: string)
    requires forall i :: 0 <= i < |cmd| ==> (Names(cmd[i].option, a) <==> Names(cmd[i].option, b))
    ensures GetOptionValue(cmd, a, default) == GetOptionValue(cmd, b, default)
    decreases |cmd|
  {
    if cmd != [] {
      assert Names(cmd[0].option, a) <==> Names(cmd[0].option, b);
      assert forall i :: 0 <= i < |cmd| - 1 ==> cmd[1..][i] == cmd[i + 1];
      GetOptionValueOfSynonyms(cmd[1..], a, b, default);
    }
  }
}

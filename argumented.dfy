/** The command-line option registry of `argumented.js`: options are registered one by
    one, each registration immediately runs the option's callback on the values that
    follow it on the command line, and `done` enforces required options and shows the
    help page. */
module Argumented {
  import opened Wrappers
  import opened Strings
  import Process

  /** The aliases that ask for the help page. */
  const HelpArgs: seq<string> := ["-h", "--help"]

  /** The value `done` passes to `process.exit` when a required option is missing. */
  const MissingArgumentExitCode: int := 0xf000

  /** A callback handed to `add`: its identity and its declared parameter count
      (JavaScript's `Function.length`). */
  datatype Callback = Callback(id: string, arity: nat)

  /** One registered option. `argNumber` is how many command-line values its callback takes. */
  datatype Entry = Entry(args: seq<string>, cb: Option<Callback>, required: bool, desc: string, argNumber: nat)

  /** A callback invocation with the values it was called with. */
  datatype Call = Call(cb: Callback, values: seq<string>)

  /** What `done` does: exit because a required alias is missing, print the help page and
      exit, or return to the caller. */
  datatype DoneOutcome = MissingArgument(arg: string) | ShowHelp(page: string) | Proceed

  /** The value an outcome of `done` passes to `process.exit`, if it ends the process
      (`process.exit()` without an argument passes 0). */
  function DoneExitArgument(o: DoneOutcome): Option<int> {
    match o
    case MissingArgument(_) => Some(MissingArgumentExitCode)
    case ShowHelp(_) => Some(0)
    case Proceed => None
  }

  /** The message `done` writes to standard error for a missing alias. */
  function MissingArgumentMessage(arg: string): string {
    "Error: required argument missing: " + arg + ".\n" + "Use --help for usage info."
  }

  /** The missing-option exit is seen by the parent process as status 0, the status
      of success, because only the low eight bits of `0xf000` reach it. */
  lemma MissingArgumentExitLooksSuccessful()
    ensures Process.ExitStatus(MissingArgumentExitCode) == 0
    ensures Process.ExitStatus(MissingArgumentExitCode) == Process.ExitStatus(DoneExitArgument(ShowHelp("")).value)
  {
  }

  /** `makeEntry`: the callback's arity becomes `argNumber`, 0 when there is no callback. */
  function MakeEntry(args: seq<string>, cb: Option<Callback>, desc: string, required: bool): (e: Entry)
    ensures e.args == args && e.cb == cb && e.desc == desc && e.required == required
    ensures e.argNumber == if cb.Some? then cb.value.arity else 0
  {
    Entry(args, cb, required, desc, if cb.Some? then cb.value.arity else 0)
  }

  /** `args.some(arg => argv.includes(arg))`. */
  function AnyPresent(args: seq<string>, argv: seq<string>): (b: bool)
    ensures b <==> exists i, j | 0 <= i < |args| && 0 <= j < |argv| :: args[i] == argv[j]
  {
    if args == [] then false
    else if args[0] in argv then true
    else AnyPresent(args[1..], argv)
  }

  /** `argv.findIndex(arg => aliases.includes(arg))`, searching from position `from`. */
  function FirstMatchFrom(argv: seq<string>, aliases: seq<string>, from: nat): (r: Option<nat>)
    requires from <= |argv|
    ensures r.Some? ==> from <= r.value < |argv| && argv[r.value] in aliases
    ensures r.Some? ==> forall j | from <= j < r.value :: argv[j] !in aliases
    ensures r.None? <==> forall j | from <= j < |argv| :: argv[j] !in aliases
    decreases |argv| - from
  {
    if from == |argv| then None
    else if argv[from] in aliases then Some(from)
    else FirstMatchFrom(argv, aliases, from + 1)
  }

  /** The position of the first command-line word that is one of `aliases`. */
  function FirstMatch(argv: seq<string>, aliases: seq<string>): Option<nat>
  {
    FirstMatchFrom(argv, aliases, 0)
  }

  /** `s.slice(start, end)` for non-negative bounds: both are clamped to the length. */
  function Slice(s: seq<string>, start: nat, end: nat): (r: seq<string>)
    ensures start <= |s| && end <= |s| && start <= end ==> r == s[start..end]
    ensures start <= |s| < end ==> r == s[start..]
    ensures |s| <= start || end <= start ==> r == []
    ensures |r| <= if end >= start then end - start else 0
  {
    var a := if start <= |s| then start else |s|;
    var b := if end <= |s| then end else |s|;
    if a < b then s[a..b] else []
  }

  /** `execute(entry)`: the callback invocation it makes, if any. */
  function ExecuteCall(e: Entry, argv: seq<string>): (r: Option<Call>)
    ensures r.Some? <==> e.cb.Some? && exists j | 0 <= j < |argv| :: argv[j] in e.args
    ensures r.Some? ==> r.value.cb == e.cb.value
    ensures r.Some? ==> var i := FirstMatch(argv, e.args).value;
      && |r.value.values| <= e.argNumber
      && i + 1 + |r.value.values| <= |argv|
      && r.value.values == argv[i + 1 .. i + 1 + |r.value.values|]
      && (|r.value.values| == e.argNumber || i + 1 + |r.value.values| == |argv|)
  {
    match FirstMatch(argv, e.args)
    case None => None
    case Some(idx) =>
      if e.cb.Some? then Some(Call(e.cb.value, Slice(argv, idx + 1, idx + e.argNumber + 1))) else None
  }

  /** The invocations an optional call contributes to the log. */
  function CallsOf(c: Option<Call>): seq<Call> {
    if c.Some? then [c.value] else []
  }

  /** The ` (+N args)` marker of an entry whose callback takes values. */
  function ArgsSuffix(n: nat): string {
    if n == 0 then "" else " (+" + NatString(n) + " args)"
  }

  /** The fragment an entry contributes to the usage line. */
  function UsageFragment(e: Entry): string {
    (if e.required then " " else " [") + Join(e.args, ", ") + ArgsSuffix(e.argNumber) + (if e.required then "" else "]")
  }

  /** The line an entry contributes to the options list. */
  function OptionLine(e: Entry): string {
    "\t" + Join(e.args, ", ") + ArgsSuffix(e.argNumber) + "\t" + e.desc + "\n"
  }

  /** The usage fragments of the entries, in registration order. */
  function UsageFragments(es: seq<Entry>): string {
    if es == [] then "" else UsageFragments(es[..|es| - 1]) + UsageFragment(es[|es| - 1])
  }

  /** The option lines of the entries, in registration order. */
  function OptionLines(es: seq<Entry>): string {
    if es == [] then "" else OptionLines(es[..|es| - 1]) + OptionLine(es[|es| - 1])
  }

  /** The text `printHelpPage` logs. */
  function HelpPage(desc: string, name: string, es: seq<Entry>): string {
    desc + "\n\n" + "Usage:\n" + "\tnode ./" + name + UsageFragments(es) + "\n\n" + "Options:\n" + OptionLines(es)
  }

  /** The arity marker appears exactly for entries whose callback takes values, and the
      number it shows reads back as that count. */
  lemma ArgsSuffixShowsArity(n: nat)
    ensures ArgsSuffix(n) == "" <==> n == 0
    ensures n > 0 ==> var t := ArgsSuffix(n);
      |t| > 9 && t[..3] == " (+" && t[|t| - 6..] == " args)" && IsDigits(t[3..|t| - 6]) && DigitsValue(t[3..|t| - 6]) == n
  {
    if n > 0 {
      var t := ArgsSuffix(n);
      assert t[3..|t| - 6] == NatString(n);
      NatStringRoundTrip(n);
    }
  }

  /** The marker contains neither a line break nor an opening bracket. */
  lemma ArgsSuffixAvoids(n: nat, c: char)
    requires c == '\n' || c == '['
    ensures c !in ArgsSuffix(n)
  {
  }

  /** No alias of any entry contains `c`. */
  predicate AliasesAvoid(es: seq<Entry>, c: char) {
    forall i, j | 0 <= i < |es| && 0 <= j < |es[i].args| :: c !in es[i].args[j]
  }

  /** The number of optional entries. */
  function OptionalCount(es: seq<Entry>): nat {
    if es == [] then 0 else OptionalCount(es[..|es| - 1]) + (if es[|es| - 1].required then 0 else 1)
  }

  /** The options list has one line per entry when no alias or description contains a
      line break. */
  lemma {:induction false} OptionLinesOnePerEntry(es: seq<Entry>)
    requires AliasesAvoid(es, '\n')
    requires forall i | 0 <= i < |es| :: '\n' !in es[i].desc
    ensures Count(OptionLines(es), '\n') == |es|
  {
    if es != [] {
      var init, e := es[..|es| - 1], es[|es| - 1];
      OptionLinesOnePerEntry(init);
      JoinAvoids(e.args, ", ", '\n');
      ArgsSuffixAvoids(e.argNumber, '\n');
      var j := Join(e.args, ", ");
      var sfx := ArgsSuffix(e.argNumber);
      CountAbsent(j, '\n');
      CountAbsent(sfx, '\n');
      CountAbsent(e.desc, '\n');
      CountAppend("\t", j, '\n');
      CountAppend("\t" + j, sfx, '\n');
      CountAppend("\t" + j + sfx, "\t", '\n');
      CountAppend("\t" + j + sfx + "\t", e.desc, '\n');
      CountAppend("\t" + j + sfx + "\t" + e.desc, "\n", '\n');
      CountAppend(OptionLines(init), OptionLine(e), '\n');
    }
  }

  /** The usage line brackets exactly the optional entries when no alias contains a
      bracket. */
  lemma {:induction false} UsageBracketsOptional(es: seq<Entry>)
    requires AliasesAvoid(es, '[')
    ensures Count(UsageFragments(es), '[') == OptionalCount(es)
  {
    if es != [] {
      var init, e := es[..|es| - 1], es[|es| - 1];
      UsageBracketsOptional(init);
      JoinAvoids(e.args, ", ", '[');
      ArgsSuffixAvoids(e.argNumber, '[');
      var open := if e.required then " " else " [";
      var close := if e.required then "" else "]";
      var j := Join(e.args, ", ");
      var sfx := ArgsSuffix(e.argNumber);
      CountAbsent(j, '[');
      CountAbsent(sfx, '[');
      CountAppend(open, j, '[');
      CountAppend(open + j, sfx, '[');
      CountAppend(open + j + sfx, close, '[');
      CountAppend(UsageFragments(init), UsageFragment(e), '[');
    }
  }

  /** The first of `aliases` that is not on the command line. */
  function FirstAbsent(aliases: seq<string>, argv: seq<string>): (r: Option<string>)
    ensures r.Some? ==> r.value in aliases && r.value !in argv
    ensures r.Some? ==> exists k | 0 <= k < |aliases| ::
      aliases[k] == r.value && forall j | 0 <= j < k :: aliases[j] in argv
    ensures r.None? <==> forall j | 0 <= j < |aliases| :: aliases[j] in argv
  {
    if aliases == [] then None
    else if aliases[0] !in argv then Some(aliases[0])
    else FirstAbsent(aliases[1..], argv)
  }

  /** The first alias of a required entry that is missing from the command line, taking
      entries in registration order and each entry's aliases in order. */
  function FirstMissing(es: seq<Entry>, argv: seq<string>): Option<string>
  {
    if es == [] then None
    else if es[0].required && FirstAbsent(es[0].args, argv).Some? then FirstAbsent(es[0].args, argv)
    else FirstMissing(es[1..], argv)
  }

  /** Nothing is missing exactly when every alias of every required entry is present, and
      what is reported missing is an absent alias of a required entry. */
  lemma {:induction false} FirstMissingSound(es: seq<Entry>, argv: seq<string>)
    ensures FirstMissing(es, argv).None? <==>
      forall i, j | 0 <= i < |es| && es[i].required && 0 <= j < |es[i].args| :: es[i].args[j] in argv
    ensures FirstMissing(es, argv).Some? ==>
      var a := FirstMissing(es, argv).value;
      a !in argv && exists i | 0 <= i < |es| :: es[i].required && a in es[i].args
  {
    if es != [] {
      FirstMissingSound(es[1..], argv);
      assert forall i | 1 <= i < |es| :: es[i] == es[1..][i - 1];
      if !(es[0].required && FirstAbsent(es[0].args, argv).Some?) {
        assert FirstMissing(es, argv) == FirstMissing(es[1..], argv);
      }
    }
  }

  /** Characters that cannot occur in the program name `init` extracts from the script path. */
  const PathSeparators: set<char> := {'<', '>', ':', '"', '/', '\\', '|', '?', '*'}

  /** The longest suffix of `p` without a path separator. */
  function TrailingSegment(p: string): (r: string)
    ensures |r| <= |p| && r == p[|p| - |r|..]
    ensures forall i | 0 <= i < |r| :: r[i] !in PathSeparators
    ensures |r| == |p| || p[|p| - |r| - 1] in PathSeparators
  {
    if p == [] || p[|p| - 1] in PathSeparators then []
    else TrailingSegment(p[..|p| - 1]) + [p[|p| - 1]]
  }

  /** `p.match(/[^<>:"/\\|?*]+$/)[0]`: the last path segment, or nothing when the match
      fails (the path is empty or ends in a separator), which makes `init` throw. */
  function ScriptName(p: string): (r: Option<string>)
    ensures r.Some? <==> |p| > 0 && p[|p| - 1] !in PathSeparators
    ensures r.Some? ==> r.value == TrailingSegment(p) && |r.value| > 0
  {
    var s := TrailingSegment(p);
    if s == [] then None else Some(s)
  }

  /** The name taken from a path is the text after its last separator. */
  lemma {:induction false} ScriptNameAfterSeparator(dir: string, sep: char, file: string)
    requires sep in PathSeparators && file != []
    requires forall i | 0 <= i < |file| :: file[i] !in PathSeparators
    ensures ScriptName(dir + [sep] + file) == Some(file)
  {
    TrailingSegmentAfter(dir, sep, file);
  }

  lemma {:induction false} TrailingSegmentAfter(dir: string, sep: char, file: string)
    requires sep in PathSeparators
    requires forall i | 0 <= i < |file| :: file[i] !in PathSeparators
    ensures TrailingSegment(dir + [sep] + file) == file
  {
    var p := dir + [sep] + file;
    if file == [] {
      assert p == dir + [sep];
    } else {
      var file' := file[..|file| - 1];
      assert p[..|p| - 1] == dir + [sep] + file';
      assert p[|p| - 1] == file[|file| - 1];
      TrailingSegmentAfter(dir, sep, file');
      assert file' + [file[|file| - 1]] == file;
    }
  }

  /** The module state of `argumented.js`, with `argv` standing for `process.argv` and
      `calls` recording the callbacks invoked so far. */
  class Registry {
    var argv: seq<string>
    var entries: seq<Entry>
    var name: string
    var desc: string
    var calls: seq<Call>

    constructor (argv: seq<string>)
      ensures this.argv == argv && entries == [] && name == "" && desc == "" && calls == []
    {
      this.argv := argv;
      entries, name, desc, calls := [], "", "", [];
    }

    /** `has(args)`: some alias occurs on the command line. */
    function Has(args: seq<string>): bool
      reads this
    {
      AnyPresent(args, argv)
    }

    /** `execute(entry)`. */
    method Execute(e: Entry)
      modifies this`calls
      ensures calls == old(calls) + CallsOf(ExecuteCall(e, argv))
    {
      var idx := FirstMatch(argv, e.args);
      if idx.Some? && e.cb.Some? {
        calls := calls + [Call(e.cb.value, Slice(argv, idx.value + 1, idx.value + e.argNumber + 1))];
      }
    }

    /** `add(args, callback, description, required)`: a missing alias list throws; otherwise
        the entry is appended and, unless help was asked for, executed at once. */
    method Add(args: Option<seq<string>>, callback: Option<Callback>, description: string, required: bool)
      returns (r: Outcome<string>)
      modifies this`entries, this`calls
      ensures args.None? ==> r == Fail("No arguments provided") && entries == old(entries) && calls == old(calls)
      ensures args.Some? ==> r == Pass
      ensures args.Some? ==> entries == old(entries) + [MakeEntry(args.value, callback, description, required)]
      ensures args.Some? && Has(HelpArgs) ==> calls == old(calls)
      ensures args.Some? && !Has(HelpArgs) ==>
        calls == old(calls) + CallsOf(ExecuteCall(MakeEntry(args.value, callback, description, required), argv))
    {
      if args.None? {
        return Fail("No arguments provided");
      }
      var entry := MakeEntry(args.value, callback, description, required);
      entries := entries + [entry];
      if !Has(HelpArgs) {
        Execute(entry);
      }
      return Pass;
    }

    /** `init(description)`: the program name is the last segment of the script path
        (`argv[1]`), the description is kept when non-empty, and the help option is
        registered first. Fails, changing nothing, when there is no script path or it
        ends in a separator. */
    method Init(description: string) returns (ok: bool)
      modifies this`name, this`desc, this`entries, this`calls
      ensures ok <==> |argv| >= 2 && ScriptName(argv[1]).Some?
      ensures !ok ==> name == old(name) && desc == old(desc) && entries == old(entries)
      ensures ok ==> name == ScriptName(argv[1]).value
      ensures ok ==> desc == if description != "" then description else old(desc)
      ensures ok ==> entries == old(entries) + [MakeEntry(HelpArgs, None, "Show this page", false)]
      ensures calls == old(calls)
    {
      if |argv| < 2 {
        return false;
      }
      var matched := ScriptName(argv[1]);
      if matched.None? {
        return false;
      }
      name := matched.value;
      if description != "" {
        desc := description;
      }
      var _ := Add(Some(HelpArgs), None, "Show this page", false);
      return true;
    }

    /** `printHelpPage()`: the usage line and the options list, one fragment and one line
        per entry in registration order. */
    method PrintHelpPage() returns (text: string)
      ensures text == HelpPage(desc, name, entries)
    {
      var invocation := "";
      var paramDesc := "";
      for i := 0 to |entries|
        invariant invocation == UsageFragments(entries[..i])
        invariant paramDesc == OptionLines(entries[..i])
      {
        var entry := entries[i];
        assert entries[..i + 1][..i] == entries[..i];
        var fragment := (if entry.required then " " else " [") + Join(entry.args, ", ") +
          ArgsSuffix(entry.argNumber) + (if entry.required then "" else "]");
        var line := "\t" + Join(entry.args, ", ") + ArgsSuffix(entry.argNumber) + "\t" + entry.desc + "\n";
        invocation := invocation + fragment;
        paramDesc := paramDesc + line;
      }
      assert entries[..|entries|] == entries;
      text := desc + "\n\n" + "Usage:\n" + "\tnode ./" + name + invocation + "\n\n" + "Options:\n" + paramDesc;
    }

    /** `done()`: every alias of every required entry must be on the command line;
        then the help page is shown if it was asked for. */
    method Done() returns (o: DoneOutcome)
      ensures FirstMissing(entries, argv).Some? ==> o == MissingArgument(FirstMissing(entries, argv).value)
      ensures FirstMissing(entries, argv).None? && Has(HelpArgs) ==> o == ShowHelp(HelpPage(desc, name, entries))
      ensures FirstMissing(entries, argv).None? && !Has(HelpArgs) ==> o == Proceed
    {
      var i := 0;
      while i < |entries|
        invariant 0 <= i <= |entries|
        invariant FirstMissing(entries[i..], argv) == FirstMissing(entries, argv)
      {
        var entry := entries[i];
        assert entries[i..][0] == entry && entries[i..][1..] == entries[i + 1..];
        if entry.required {
          var j := 0;
          while j < |entry.args|
            invariant 0 <= j <= |entry.args|
            invariant FirstAbsent(entry.args[j..], argv) == FirstAbsent(entry.args, argv)
          {
            assert entry.args[j..][0] == entry.args[j] && entry.args[j..][1..] == entry.args[j + 1..];
            if entry.args[j] !in argv {
              assert FirstAbsent(entry.args, argv) == Some(entry.args[j]);
              assert FirstMissing(entries[i..], argv) == Some(entry.args[j]);
              return MissingArgument(entry.args[j]);
            }
            j := j + 1;
          }
          assert FirstAbsent(entry.args[j..], argv) == None;
        }
        assert FirstMissing(entries[i..], argv) == FirstMissing(entries[i + 1..], argv);
        i := i + 1;
      }
      if Has(HelpArgs) {
        var page := PrintHelpPage();
        return ShowHelp(page);
      }
      return Proceed;
    }
  }
}

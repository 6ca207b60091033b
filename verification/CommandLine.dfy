/** The evaluation command: the controller prints a job's spec as one line with
    three levels of separators, and the line can be read back. */
module CommandLine {
  import opened Options
  import opened Text

  datatype Arg = Arg(name: string, value: string)

  /** The printed part of LMEvalJobSpec; None is an absent (nil) field. */
  datatype Spec = Spec(
    model: string,
    modelArgs: Option<seq<Arg>>,
    tasks: seq<string>,
    numFewShot: Option<int>,
    limit: string,
    genArgs: Option<seq<Arg>>,
    logSamples: Option<bool>)

  const OUTPUT_PATH := "/opt/app-root/src/output"
  const PROGRAM := ["python", "-m", "lm_eval"]

  /** The options that take a value. */
  datatype Flag = OutputPath | Model | ModelArgs | Tasks | NumFewShot | Limit | GenKwargs

  function FlagText(flag: Flag): string {
    match flag
    case OutputPath => "--output_path"
    case Model => "--model"
    case ModelArgs => "--model_args"
    case Tasks => "--tasks"
    case NumFewShot => "--num_fewshot"
    case Limit => "--limit"
    case GenKwargs => "--gen_kwargs"
  }

  const LOG_SAMPLES := "--log_samples"

  // Printing

  function ArgForm(arg: Arg): string {
    arg.name + "=" + arg.value
  }

  function ArgForms(args: seq<Arg>): (forms: seq<string>)
    ensures |forms| == |args|
  {
    seq(|args|, i requires 0 <= i < |args| => ArgForm(args[i]))
  }

  function ArgsText(args: seq<Arg>): string {
    Join(ArgForms(args), ',')
  }

  function Printed(flag: Flag, value: Option<string>): seq<string> {
    if value.None? then [] else [FlagText(flag), value.value]
  }

  function ArgsValue(args: Option<seq<Arg>>): Option<string> {
    if args.None? then None else Some(ArgsText(args.value))
  }

  function FewShotValue(n: Option<int>): Option<string> {
    if n.None? then None else Some(Itoa(n.value))
  }

  function LimitValue(limit: string): Option<string> {
    if limit == "" then None else Some(limit)
  }

  /** The options from the tasks on, in the order of printing. */
  function LastOptions(spec: Spec): seq<string> {
    Printed(Tasks, Some(Join(spec.tasks, ',')))
    + (Printed(NumFewShot, FewShotValue(spec.numFewShot))
       + (Printed(Limit, LimitValue(spec.limit))
          + (Printed(GenKwargs, ArgsValue(spec.genArgs))
             + if spec.logSamples == Some(true) then [LOG_SAMPLES] else [])))
  }

  function AllOptions(spec: Spec): seq<string> {
    Printed(OutputPath, Some(OUTPUT_PATH))
    + (Printed(Model, Some(spec.model))
       + (Printed(ModelArgs, ArgsValue(spec.modelArgs))
          + LastOptions(spec)))
  }

  function Words(spec: Spec): seq<string> {
    PROGRAM + AllOptions(spec)
  }

  function Line(spec: Spec): string {
    Join(Words(spec), ' ')
  }

  method ArgsToString(args: Option<seq<Arg>>) returns (s: string)
    ensures s == if args.None? then "" else ArgsText(args.value)
  {
    if args.None? {
      return "";
    }
    var equalForms: seq<string> := [];
    for i := 0 to |args.value|
      invariant equalForms == ArgForms(args.value)[..i]
    {
      equalForms := equalForms + [args.value[i].name + "=" + args.value[i].value];
    }
    assert equalForms == ArgForms(args.value);
    return Join(equalForms, ',');
  }

  lemma Regroup(a: seq<string>, b: seq<string>, c: seq<string>, d: seq<string>, e: seq<string>)
    ensures (((a + b) + c) + d) + e == a + (b + (c + (d + e)))
  {}

  method GenerateArgs(spec: Spec) returns (args: seq<string>)
    ensures args == ["sh", "-ec", Line(spec)]
  {
    var cmds := ["python", "-m", "lm_eval", "--output_path", "/opt/app-root/src/output"];
    assert cmds == PROGRAM + Printed(OutputPath, Some(OUTPUT_PATH));
    cmds := cmds + ["--model", spec.model];
    if spec.modelArgs.Some? {
      var text := ArgsToString(spec.modelArgs);
      cmds := cmds + ["--model_args", text];
    }
    assert cmds == ((PROGRAM + Printed(OutputPath, Some(OUTPUT_PATH))) + Printed(Model, Some(spec.model)))
                   + Printed(ModelArgs, ArgsValue(spec.modelArgs));
    var rest := GenerateLastOptions(spec);
    cmds := cmds + rest;
    Regroup(PROGRAM, Printed(OutputPath, Some(OUTPUT_PATH)), Printed(Model, Some(spec.model)),
            Printed(ModelArgs, ArgsValue(spec.modelArgs)), LastOptions(spec));
    args := ["sh", "-ec", Join(cmds, ' ')];
  }

  method GenerateLastOptions(spec: Spec) returns (cmds: seq<string>)
    ensures cmds == LastOptions(spec)
  {
    cmds := ["--tasks", Join(spec.tasks, ',')];
    if spec.numFewShot.Some? {
      cmds := cmds + ["--num_fewshot", Itoa(spec.numFewShot.value)];
    }
    if spec.limit != "" {
      cmds := cmds + ["--limit", spec.limit];
    }
    if spec.genArgs.Some? {
      var text := ArgsToString(spec.genArgs);
      cmds := cmds + ["--gen_kwargs", text];
    }
    assert cmds == ((Printed(Tasks, Some(Join(spec.tasks, ','))) + Printed(NumFewShot, FewShotValue(spec.numFewShot)))
                    + Printed(Limit, LimitValue(spec.limit))) + Printed(GenKwargs, ArgsValue(spec.genArgs));
    if spec.logSamples.Some? && spec.logSamples.value {
      cmds := cmds + ["--log_samples"];
    }
    Regroup(Printed(Tasks, Some(Join(spec.tasks, ','))), Printed(NumFewShot, FewShotValue(spec.numFewShot)),
            Printed(Limit, LimitValue(spec.limit)), Printed(GenKwargs, ArgsValue(spec.genArgs)),
            if spec.logSamples == Some(true) then [LOG_SAMPLES] else []);
  }

  // Reading back

  /** The spec up to the difference between no flag and a false one, and where the
      results go. */
  datatype Reading = Reading(
    outputPath: string,
    model: string,
    modelArgs: Option<seq<Arg>>,
    tasks: seq<string>,
    numFewShot: Option<int>,
    limit: string,
    genArgs: Option<seq<Arg>>,
    logSamples: bool)

  function View(spec: Spec): Reading {
    Reading("/opt/app-root/src/output", spec.model, spec.modelArgs, spec.tasks, spec.numFewShot, spec.limit, spec.genArgs,
            spec.logSamples == Some(true))
  }

  /** The option a word names, as lm_eval spells its options. */
  function FlagOf(word: string): Option<Flag> {
    if word == "--output_path" then Some(OutputPath)
    else if word == "--model" then Some(Model)
    else if word == "--model_args" then Some(ModelArgs)
    else if word == "--tasks" then Some(Tasks)
    else if word == "--num_fewshot" then Some(NumFewShot)
    else if word == "--limit" then Some(Limit)
    else if word == "--gen_kwargs" then Some(GenKwargs)
    else None
  }

  /** The options met so far; each takes the word after it. */
  datatype Found = Found(values: map<Flag, string>, logSamples: bool)

  function ReadOptions(words: seq<string>, found: Found): Option<Found> {
    if words == [] then Some(found)
    else if words[0] == "--log_samples" then ReadOptions(words[1..], found.(logSamples := true))
    else if FlagOf(words[0]).Some? && |words| >= 2 then
      ReadOptions(words[2..], found.(values := found.values[FlagOf(words[0]).value := words[1]]))
    else None
  }

  /** name=value, cut at the first equals sign. */
  function ReadArg(s: string): Option<Arg> {
    var n := Cut(s, '=');
    if n == |s| then None else Some(Arg(s[..n], s[n + 1..]))
  }

  function ReadArgs(forms: seq<string>): (args: Option<seq<Arg>>)
    ensures args.Some? ==>
              |args.value| == |forms| && forall i :: 0 <= i < |forms| ==> ReadArg(forms[i]) == Some(args.value[i])
  {
    if forms == [] then Some([])
    else
      var first, rest := ReadArg(forms[0]), ReadArgs(forms[1..]);
      if first.None? || rest.None? then None else Some([first.value] + rest.value)
  }

  /** An optional list of arguments; None if it cannot be read. */
  function ReadArgsOption(values: map<Flag, string>, flag: Flag): Option<Option<seq<Arg>>> {
    if flag !in values then Some(None)
    else
      var args := ReadArgs(Split(values[flag], ','));
      if args.None? then None else Some(Some(args.value))
  }

  function ReadFewShot(values: map<Flag, string>): Option<Option<int>> {
    if NumFewShot !in values then Some(None)
    else
      var n := ParseDecimal(values[NumFewShot]);
      if n.None? then None else Some(Some(n.value))
  }

  function Interpret(found: Found): Option<Reading> {
    var v := found.values;
    var modelArgs, genArgs := ReadArgsOption(v, ModelArgs), ReadArgsOption(v, GenKwargs);
    var fewShot := ReadFewShot(v);
    if OutputPath !in v || Model !in v || Tasks !in v || modelArgs.None? || genArgs.None? || fewShot.None? then None
    else
      Some(Reading(v[OutputPath], v[Model], modelArgs.value, Split(v[Tasks], ','), fewShot.value,
                   if Limit in v then v[Limit] else "", genArgs.value, found.logSamples))
  }

  /** Words, options, commas, and the first equals sign. */
  function Decode(line: string): Option<Reading> {
    var words := Fields(line);
    if |words| < 3 || words[..3] != ["python", "-m", "lm_eval"] then None
    else
      var found := ReadOptions(words[3..], Found(map[], false));
      if found.None? then None else Interpret(found.value)
  }

  // What can be read back

  predicate NoBlanks(s: string) {
    forall i :: 0 <= i < |s| ==> !IsBlank(s[i])
  }

  predicate CleanArg(arg: Arg) {
    && NoBlanks(arg.name) && Free(arg.name, ',') && Free(arg.name, '=')
    && NoBlanks(arg.value) && Free(arg.value, ',')
  }

  predicate CleanArgs(args: Option<seq<Arg>>) {
    args.Some? ==> args.value != [] && forall i :: 0 <= i < |args.value| ==> CleanArg(args.value[i])
  }

  predicate CleanTasks(tasks: seq<string>) {
    && tasks != [] && tasks != [""]
    && forall i :: 0 <= i < |tasks| ==> NoBlanks(tasks[i]) && Free(tasks[i], ',')
  }

  /** The fields hold none of the separators they are printed between, and what
      is printed for each is not empty. */
  predicate Clean(spec: Spec) {
    && Word(spec.model) && CleanArgs(spec.modelArgs) && CleanTasks(spec.tasks)
    && NoBlanks(spec.limit) && CleanArgs(spec.genArgs)
  }

  lemma NoBlanksConcat(a: string, b: string)
    ensures NoBlanks(a + b) <==> NoBlanks(a) && NoBlanks(b)
  {
    if NoBlanks(a + b) {
      assert forall i :: 0 <= i < |a| ==> a[i] == (a + b)[i];
      assert forall i :: 0 <= i < |b| ==> b[i] == (a + b)[|a| + i];
    }
  }

  lemma {:induction false} NoBlanksJoin(parts: seq<string>)
    ensures NoBlanks(Join(parts, ',')) <==> forall i :: 0 <= i < |parts| ==> NoBlanks(parts[i])
  {
    if |parts| > 1 {
      NoBlanksJoin(parts[1..]);
      NoBlanksConcat(parts[0], [',']);
      NoBlanksConcat(parts[0] + [','], Join(parts[1..], ','));
      assert (forall i :: 0 <= i < |parts| ==> NoBlanks(parts[i]))
        <==> NoBlanks(parts[0]) && forall i :: 0 <= i < |parts[1..]| ==> NoBlanks(parts[1..][i]) by {
        assert forall i :: 1 <= i < |parts| ==> parts[i] == parts[1..][i - 1];
      }
    }
  }

  lemma ArgFormReads(arg: Arg)
    requires CleanArg(arg)
    ensures ReadArg(ArgForm(arg)) == Some(arg)
    ensures Word(ArgForm(arg)) && Free(ArgForm(arg), ',')
  {
    var s := ArgForm(arg);
    assert s == arg.name + ['='] + arg.value;
    CutAt(arg.name, arg.value, '=');
    assert s[..|arg.name|] == arg.name && s[|arg.name| + 1..] == arg.value;
    NoBlanksConcat(arg.name, "=");
    NoBlanksConcat(arg.name + "=", arg.value);
  }

  lemma ArgsTextReads(args: seq<Arg>)
    requires CleanArgs(Some(args))
    ensures ReadArgs(Split(ArgsText(args), ',')) == Some(args)
    ensures Word(ArgsText(args))
  {
    var forms := ArgForms(args);
    forall i | 0 <= i < |forms| ensures Free(forms[i], ',') && NoBlanks(forms[i]) && ReadArg(forms[i]) == Some(args[i]) {
      assert CleanArg(args[i]);
      ArgFormReads(args[i]);
    }
    SplitJoin(forms, ',');
    ReadsAll(forms, args);
    NoBlanksJoin(forms);
    assert ArgsText(args) != "" by {
      assert ReadArg(forms[0]).Some?;
    }
  }

  lemma {:induction false} ReadsAll(forms: seq<string>, args: seq<Arg>)
    requires |forms| == |args| && forall i :: 0 <= i < |forms| ==> ReadArg(forms[i]) == Some(args[i])
    ensures ReadArgs(forms) == Some(args)
  {
    if forms != [] {
      ReadsAll(forms[1..], args[1..]);
      assert [args[0]] + args[1..] == args;
    }
  }

  lemma TasksTextReads(tasks: seq<string>)
    requires CleanTasks(tasks)
    ensures Split(Join(tasks, ','), ',') == tasks
    ensures Word(Join(tasks, ','))
  {
    SplitJoin(tasks, ',');
    NoBlanksJoin(tasks);
  }

  // The round trip

  function WithOption(found: Found, flag: Flag, value: Option<string>): Found {
    if value.None? then found else found.(values := found.values[flag := value.value])
  }

  lemma FlagTextReads(flag: Flag)
    ensures FlagOf(FlagText(flag)) == Some(flag) && FlagText(flag) != LOG_SAMPLES && Word(FlagText(flag))
  {}

  lemma ReadsOption(flag: Flag, value: Option<string>, rest: seq<string>, found: Found)
    ensures ReadOptions(Printed(flag, value) + rest, found) == ReadOptions(rest, WithOption(found, flag, value))
  {
    if value.Some? {
      FlagTextReads(flag);
      var words := [FlagText(flag), value.value] + rest;
      assert words[2..] == rest;
    } else {
      assert [] + rest == rest;
    }
  }

  /** What reading the printed options finds. */
  function FoundFirst(spec: Spec): Found {
    var f1 := WithOption(Found(map[], false), OutputPath, Some(OUTPUT_PATH));
    WithOption(WithOption(f1, Model, Some(spec.model)), ModelArgs, ArgsValue(spec.modelArgs))
  }

  function FoundLast(spec: Spec, found: Found): Found {
    var f4 := WithOption(found, Tasks, Some(Join(spec.tasks, ',')));
    var f5 := WithOption(f4, NumFewShot, FewShotValue(spec.numFewShot));
    var f6 := WithOption(f5, Limit, LimitValue(spec.limit));
    var f7 := WithOption(f6, GenKwargs, ArgsValue(spec.genArgs));
    if spec.logSamples == Some(true) then f7.(logSamples := true) else f7
  }

  lemma ReadsLastOptions(spec: Spec, found: Found)
    ensures ReadOptions(LastOptions(spec), found) == Some(FoundLast(spec, found))
  {
    var r7 := if spec.logSamples == Some(true) then [LOG_SAMPLES] else [];
    var r6 := Printed(GenKwargs, ArgsValue(spec.genArgs)) + r7;
    var r5 := Printed(Limit, LimitValue(spec.limit)) + r6;
    var r4 := Printed(NumFewShot, FewShotValue(spec.numFewShot)) + r5;
    var f4 := WithOption(found, Tasks, Some(Join(spec.tasks, ',')));
    var f5 := WithOption(f4, NumFewShot, FewShotValue(spec.numFewShot));
    var f6 := WithOption(f5, Limit, LimitValue(spec.limit));
    ReadsOption(Tasks, Some(Join(spec.tasks, ',')), r4, found);
    ReadsOption(NumFewShot, FewShotValue(spec.numFewShot), r5, f4);
    ReadsOption(Limit, LimitValue(spec.limit), r6, f5);
    ReadsOption(GenKwargs, ArgsValue(spec.genArgs), r7, f6);
    if spec.logSamples == Some(true) {
      assert r7[1..] == [];
    }
  }

  lemma ReadsAllOptions(spec: Spec)
    ensures ReadOptions(AllOptions(spec), Found(map[], false)) == Some(FoundLast(spec, FoundFirst(spec)))
  {
    var r3 := LastOptions(spec);
    var r2 := Printed(ModelArgs, ArgsValue(spec.modelArgs)) + r3;
    var r1 := Printed(Model, Some(spec.model)) + r2;
    var f1 := WithOption(Found(map[], false), OutputPath, Some(OUTPUT_PATH));
    ReadsOption(OutputPath, Some(OUTPUT_PATH), r1, Found(map[], false));
    ReadsOption(Model, Some(spec.model), r2, f1);
    ReadsOption(ModelArgs, ArgsValue(spec.modelArgs), r3, WithOption(f1, Model, Some(spec.model)));
    ReadsLastOptions(spec, FoundFirst(spec));
  }

  predicate AreWords(words: seq<string>) {
    forall i :: 0 <= i < |words| ==> Word(words[i])
  }

  lemma WordsConcat(a: seq<string>, b: seq<string>)
    requires AreWords(a) && AreWords(b)
    ensures AreWords(a + b)
  {}

  lemma PrintedIsWords(flag: Flag, value: Option<string>, rest: seq<string>)
    requires (value.Some? ==> Word(value.value)) && AreWords(rest)
    ensures AreWords(Printed(flag, value) + rest)
  {
    FlagTextReads(flag);
  }

  lemma ArgsValueIsWord(args: Option<seq<Arg>>)
    requires CleanArgs(args)
    ensures ArgsValue(args).Some? ==> Word(ArgsValue(args).value)
  {
    if args.Some? {
      ArgsTextReads(args.value);
    }
  }

  lemma LastOptionsAreWords(spec: Spec)
    requires Clean(spec)
    ensures AreWords(LastOptions(spec))
  {
    var r7 := if spec.logSamples == Some(true) then [LOG_SAMPLES] else [];
    ArgsValueIsWord(spec.genArgs);
    PrintedIsWords(GenKwargs, ArgsValue(spec.genArgs), r7);
    var r6 := Printed(GenKwargs, ArgsValue(spec.genArgs)) + r7;
    PrintedIsWords(Limit, LimitValue(spec.limit), r6);
    var r5 := Printed(Limit, LimitValue(spec.limit)) + r6;
    if spec.numFewShot.Some? {
      ParseItoa(spec.numFewShot.value);
    }
    PrintedIsWords(NumFewShot, FewShotValue(spec.numFewShot), r5);
    TasksTextReads(spec.tasks);
    PrintedIsWords(Tasks, Some(Join(spec.tasks, ',')), Printed(NumFewShot, FewShotValue(spec.numFewShot)) + r5);
  }

  lemma AllWords(spec: Spec)
    requires Clean(spec)
    ensures AreWords(Words(spec))
  {
    LastOptionsAreWords(spec);
    ArgsValueIsWord(spec.modelArgs);
    PrintedIsWords(ModelArgs, ArgsValue(spec.modelArgs), LastOptions(spec));
    var r2 := Printed(ModelArgs, ArgsValue(spec.modelArgs)) + LastOptions(spec);
    PrintedIsWords(Model, Some(spec.model), r2);
    PrintedIsWords(OutputPath, Some(OUTPUT_PATH), Printed(Model, Some(spec.model)) + r2);
    WordsConcat(PROGRAM, AllOptions(spec));
  }

  predicate Holds(values: map<Flag, string>, flag: Flag, value: Option<string>) {
    if value.None? then flag !in values else flag in values && values[flag] == value.value
  }

  lemma FoundValues(spec: Spec)
    ensures var v := FoundLast(spec, FoundFirst(spec)).values;
            && Holds(v, OutputPath, Some("/opt/app-root/src/output"))
            && Holds(v, Model, Some(spec.model)) && Holds(v, ModelArgs, ArgsValue(spec.modelArgs))
            && Holds(v, Tasks, Some(Join(spec.tasks, ','))) && Holds(v, NumFewShot, FewShotValue(spec.numFewShot))
            && Holds(v, Limit, LimitValue(spec.limit)) && Holds(v, GenKwargs, ArgsValue(spec.genArgs))
  {}

  lemma ReadsBackArgs(args: Option<seq<Arg>>, values: map<Flag, string>, flag: Flag)
    requires CleanArgs(args) && Holds(values, flag, ArgsValue(args))
    ensures ReadArgsOption(values, flag) == Some(args)
  {
    if args.Some? {
      ArgsTextReads(args.value);
    }
  }

  lemma InterpretsExpected(spec: Spec)
    requires Clean(spec)
    ensures Interpret(FoundLast(spec, FoundFirst(spec))) == Some(View(spec))
  {
    var found := FoundLast(spec, FoundFirst(spec));
    assert found.logSamples == (spec.logSamples == Some(true));
    FoundValues(spec);
    TasksTextReads(spec.tasks);
    ReadsBackArgs(spec.modelArgs, found.values, ModelArgs);
    ReadsBackArgs(spec.genArgs, found.values, GenKwargs);
    if spec.numFewShot.Some? {
      ParseItoa(spec.numFewShot.value);
    }
  }

  lemma CleanReadsBack(spec: Spec)
    requires Clean(spec)
    ensures Decode(Line(spec)) == Some(View(spec))
  {
    AllWords(spec);
    FieldsJoin(Words(spec));
    var words := Words(spec);
    assert words[..3] == PROGRAM && words[3..] == AllOptions(spec);
    ReadsAllOptions(spec);
    InterpretsExpected(spec);
  }

  /** The arguments as they are to be printed. */
  ghost predicate Prints(text: string, args: seq<Arg>) {
    exists forms: seq<string> ::
      && |forms| == |args| && text == Join(forms, ',')
      && forall i :: 0 <= i < |args| ==> forms[i] == args[i].name + "=" + args[i].value
  }

  /** An option is given exactly if the spec has something for it. */
  ghost predicate GivesArgs(values: map<Flag, string>, flag: Flag, args: Option<seq<Arg>>) {
    (flag in values <==> args.Some?) && (args.Some? ==> Prints(values[flag], args.value))
  }

  /** In every line, also one that cannot be read back from its text, each field
      stands after the name lm_eval has for it, exactly if the field is there. */
  lemma EveryOptionIsNamed(spec: Spec)
    ensures |Words(spec)| >= 3 && Words(spec)[..3] == ["python", "-m", "lm_eval"]
    ensures ReadOptions(Words(spec)[3..], Found(map[], false)).Some?
    ensures var found := ReadOptions(Words(spec)[3..], Found(map[], false)).value;
            var v := found.values;
            && OutputPath in v && v[OutputPath] == "/opt/app-root/src/output"
            && Model in v && v[Model] == spec.model
            && GivesArgs(v, ModelArgs, spec.modelArgs)
            && Tasks in v && v[Tasks] == Join(spec.tasks, ',')
            && (NumFewShot in v <==> spec.numFewShot.Some?)
            && (spec.numFewShot.Some? ==> v[NumFewShot] == Itoa(spec.numFewShot.value))
            && (Limit in v <==> spec.limit != "") && (spec.limit != "" ==> v[Limit] == spec.limit)
            && GivesArgs(v, GenKwargs, spec.genArgs)
            && (found.logSamples <==> spec.logSamples == Some(true))
  {
    assert Words(spec)[..3] == PROGRAM && Words(spec)[3..] == AllOptions(spec);
    ReadsAllOptions(spec);
    FoundValues(spec);
    ArgsArePrinted(spec.modelArgs);
    ArgsArePrinted(spec.genArgs);
  }

  lemma ArgsArePrinted(args: Option<seq<Arg>>)
    ensures args.Some? ==> Prints(ArgsValue(args).value, args.value)
  {
    if args.Some? {
      var forms := ArgForms(args.value);
      assert forall i :: 0 <= i < |args.value| ==> forms[i] == args.value[i].name + "=" + args.value[i].value;
    }
  }

  // Only clean specs can be read back

  predicate WordValues(found: Found) {
    forall k :: k in found.values ==> Word(found.values[k])
  }

  lemma {:induction false} ReadOptionsWords(words: seq<string>, found: Found)
    requires WordValues(found) && AreWords(words)
    ensures ReadOptions(words, found).Some? ==> WordValues(ReadOptions(words, found).value)
    decreases |words|
  {
    if words != [] {
      if words[0] == LOG_SAMPLES {
        ReadOptionsWords(words[1..], found.(logSamples := true));
      } else if FlagOf(words[0]).Some? && |words| >= 2 {
        ReadOptionsWords(words[2..], found.(values := found.values[FlagOf(words[0]).value := words[1]]));
      }
    }
  }

  lemma SplitNoBlanks(s: string)
    requires Word(s)
    ensures Split(s, ',') != [""]
    ensures forall i :: 0 <= i < |Split(s, ',')| ==> NoBlanks(Split(s, ',')[i])
  {
    JoinSplit(s, ',');
    NoBlanksJoin(Split(s, ','));
  }

  lemma ReadArgIsClean(s: string)
    requires NoBlanks(s) && Free(s, ',') && ReadArg(s).Some?
    ensures CleanArg(ReadArg(s).value)
  {
    var n := Cut(s, '=');
    var rest := s[n + 1..];
    assert forall i :: 0 <= i < |rest| ==> rest[i] == s[n + 1 + i];
  }

  lemma ReadArgsAreClean(s: string)
    requires Word(s) && ReadArgs(Split(s, ',')).Some?
    ensures CleanArgs(ReadArgs(Split(s, ',')))
  {
    SplitNoBlanks(s);
    var forms := Split(s, ',');
    var args := ReadArgs(forms).value;
    forall i | 0 <= i < |args| ensures CleanArg(args[i]) {
      ReadArgIsClean(forms[i]);
    }
  }

  lemma ReadingIsClean(line: string)
    requires Decode(line).Some?
    ensures var r := Decode(line).value;
            Word(r.model) && CleanArgs(r.modelArgs) && CleanTasks(r.tasks) && NoBlanks(r.limit) && CleanArgs(r.genArgs)
  {
    var words := Fields(line);
    ReadOptionsWords(words[3..], Found(map[], false));
    var v := ReadOptions(words[3..], Found(map[], false)).value.values;
    SplitNoBlanks(v[Tasks]);
    if ModelArgs in v {
      ReadArgsAreClean(v[ModelArgs]);
    }
    if GenKwargs in v {
      ReadArgsAreClean(v[GenKwargs]);
    }
  }

  /** The round trip: a spec can be read back from its command line exactly when
      its fields are free of their separators and none is printed as nothing. */
  lemma LineRoundTrip(spec: Spec)
    ensures Decode(Line(spec)) == Some(View(spec)) <==> Clean(spec)
  {
    if Clean(spec) {
      CleanReadsBack(spec);
    } else if Decode(Line(spec)) == Some(View(spec)) {
      ReadingIsClean(Line(spec));
    }
  }

  /** Clean specs that differ in more than an explicit false are printed apart. */
  lemma LineInjective(a: Spec, b: Spec)
    requires Clean(a) && Clean(b) && Line(a) == Line(b)
    ensures View(a) == View(b)
  {
    LineRoundTrip(a);
    LineRoundTrip(b);
  }

  lemma TasksCollide()
    ensures Join(["x,y"], ',') == Join(["x", "y"], ',')
  {
    assert Join(["x", "y"], ',') == "x" + [','] + Join(["x", "y"][1..], ',') == "x,y";
  }

  lemma OnlyOneIsClean()
    ensures CleanTasks(["x", "y"]) && !CleanTasks(["x,y"])
  {
    assert ["x,y"][0][1] == ',';
  }

  /** A separator in a field makes two different specs look the same. */
  lemma SeparatorsCollide()
    ensures var a := Spec("m", None, ["x,y"], None, "", None, None);
            var b := a.(tasks := ["x", "y"]);
            View(a) != View(b) && Line(a) == Line(b) && Clean(b) && !Clean(a)
  {
    TasksCollide();
    OnlyOneIsClean();
  }
}

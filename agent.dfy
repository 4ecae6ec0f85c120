/** The control logic of the advanced agent (KOV/core/advanced_agent.py): intent
    classification, planning, the tool gate with parameter extraction, reflection,
    termination and the step loop of `run`.

    The language model, the console and the tools are outside the model: every reply,
    answer and tool outcome the agent would obtain is given in an `Oracles` value. */
module Agent {
  import opened Wrappers
  import opened Text
  import opened Patterns

  // ================================================================ data model

  datatype IntentType = Question | Command | MultiStepTask | ToolRequest | ReasoningOnly

  datatype ToolPolicy = RequireConfirmation | AutoExecute | Forbidden

  /** The enum member's value, as `IntentType.X.value`. */
  function IntentValue(t: IntentType): string {
    match t
    case Question => "question"
    case Command => "command"
    case MultiStepTask => "multi_step_task"
    case ToolRequest => "tool_request"
    case ReasoningOnly => "reasoning_only"
  }

  /** The member name the prompt asks the model to answer with (`QUESTION`, ...). */
  function IntentLabel(t: IntentType): string {
    match t
    case Question => "QUESTION"
    case Command => "COMMAND"
    case MultiStepTask => "MULTI_STEP_TASK"
    case ToolRequest => "TOOL_REQUEST"
    case ReasoningOnly => "REASONING_ONLY"
  }

  /** `IntentType(v)`: lookup by value; None where Python raises ValueError. */
  function IntentFromValue(v: string): (r: Option<IntentType>)
    ensures r.Some? ==> IntentValue(r.value) == v
  {
    if v == "question" then Some(Question)
    else if v == "command" then Some(Command)
    else if v == "multi_step_task" then Some(MultiStepTask)
    else if v == "tool_request" then Some(ToolRequest)
    else if v == "reasoning_only" then Some(ReasoningOnly)
    else None
  }

  /** Lookup by value accepts exactly the five values, each for its own member. */
  lemma IntentValueLookup(v: string, t: IntentType)
    ensures IntentFromValue(v) == Some(t) <==> v == IntentValue(t)
  {
  }

  datatype Intent = Intent(kind: IntentType, confidence: real, description: string)

  datatype Plan = Plan(goal: string, steps: seq<string>, toolsNeeded: seq<string>, estimatedComplexity: int)

  /** A Python dict of string parameters: key/value pairs in insertion order, keys distinct. */
  type Params = seq<(string, string)>

  datatype ToolExecution = ToolExecution(
    toolName: string,
    parameters: Params,
    output: Option<string>,
    success: bool,
    error: Option<string>)

  datatype Reflection = Reflection(
    outputMatchesExpectation: bool,
    planStillValid: bool,
    nextStepAdjustment: Option<string>,
    additionalContextNeeded: bool)

  /** How the tool function is called with the extracted parameters: with no argument,
      with the only value as its one positional argument, or with keyword arguments. */
  datatype ToolCall = NoArguments | Positional(value: string) | Keywords(arguments: Params)

  /** What calling a tool function did: returned a value, or raised an exception with this text. */
  datatype ToolOutcome = Returned(output: string) | Raised(message: string)

  /** Everything the agent obtains from outside during one `run`: the model's replies, the
      user's answers to confirmation prompts, the outcome of tool calls (all per step where
      there is one per step), and Python's `float()` on the classifier's confidence field. */
  datatype Oracles = Oracles(
    intentReply: string,
    planReply: string,
    reasoningReply: string,
    stepReply: string -> string,
    paramReply: nat -> string,
    confirmation: nat -> string,
    invoke: nat -> (string, ToolCall) -> ToolOutcome,
    parseFloat: string -> Option<real>)

  // ================================================================ layer 1: classification

  const Interrogatives: seq<string> := ["what", "how", "why", "where", "when"]
  const ExplanationWords: seq<string> := ["explain", "tell me", "calculate"]
  const CommandWords: seq<string> := ["create", "delete", "make", "build"]
  const ToolWords: seq<string> := ["run", "execute", "use", "curl"]
  const SetupWords: seq<string> := ["setup", "configure", "install"]

  /** The keyword heuristic used when the reply has fewer than three fields, applied to
      the lower-cased user input. */
  function KeywordCategory(lowered: string): IntentType {
    if ContainsAny(lowered, Interrogatives) then
      if ContainsAny(lowered, ExplanationWords) then ReasoningOnly else Question
    else if ContainsAny(lowered, CommandWords) then Command
    else if ContainsAny(lowered, ToolWords) then ToolRequest
    else if ContainsAny(lowered, SetupWords) then MultiStepTask
    else ReasoningOnly
  }

  /** A rule of the heuristic read as a table: it applies when every one of its word
      groups has a word occurring in the input. */
  datatype KeywordRule = KeywordRule(wordGroups: seq<seq<string>>, category: IntentType)

  predicate RuleApplies(rule: KeywordRule, lowered: string) {
    forall g :: 0 <= g < |rule.wordGroups| ==> ContainsAny(lowered, rule.wordGroups[g])
  }

  /** The category of the first rule from index `i` on that applies, or `otherwise`. */
  function FirstApplicable(rules: seq<KeywordRule>, i: nat, lowered: string, otherwise: IntentType): (r: IntentType)
    ensures (forall j :: i <= j < |rules| ==> !RuleApplies(rules[j], lowered)) ==> r == otherwise
    decreases |rules| - i
  {
    if i >= |rules| then otherwise
    else if RuleApplies(rules[i], lowered) then rules[i].category
    else FirstApplicable(rules, i + 1, lowered, otherwise)
  }

  const KeywordRules: seq<KeywordRule> := [
    KeywordRule([Interrogatives, ExplanationWords], ReasoningOnly),
    KeywordRule([Interrogatives], Question),
    KeywordRule([CommandWords], Command),
    KeywordRule([ToolWords], ToolRequest),
    KeywordRule([SetupWords], MultiStepTask)
  ]

  lemma OneGroupRule(rule: KeywordRule, lowered: string)
    requires |rule.wordGroups| == 1
    ensures RuleApplies(rule, lowered) <==> ContainsAny(lowered, rule.wordGroups[0])
  {
  }

  lemma TwoGroupRule(rule: KeywordRule, lowered: string)
    requires |rule.wordGroups| == 2
    ensures RuleApplies(rule, lowered) <==>
              ContainsAny(lowered, rule.wordGroups[0]) && ContainsAny(lowered, rule.wordGroups[1])
  {
    if ContainsAny(lowered, rule.wordGroups[0]) && ContainsAny(lowered, rule.wordGroups[1]) {
      forall g | 0 <= g < |rule.wordGroups| ensures ContainsAny(lowered, rule.wordGroups[g]) {
        if g == 1 { } 
      }
    }
  }

  /** The heuristic is "first rule that applies wins", in the table's order, with
      REASONING_ONLY when none applies. */
  lemma KeywordCategoryIsFirstRule(lowered: string)
    ensures KeywordCategory(lowered) == FirstApplicable(KeywordRules, 0, lowered, ReasoningOnly)
  {
    var rules := KeywordRules;
    TwoGroupRule(rules[0], lowered);
    OneGroupRule(rules[1], lowered);
    OneGroupRule(rules[2], lowered);
    OneGroupRule(rules[3], lowered);
    OneGroupRule(rules[4], lowered);
    var L := lowered;
    assert FirstApplicable(rules, 4, L, ReasoningOnly)
             == if RuleApplies(rules[4], L) then MultiStepTask else ReasoningOnly;
    assert FirstApplicable(rules, 3, L, ReasoningOnly)
             == if RuleApplies(rules[3], L) then ToolRequest else FirstApplicable(rules, 4, L, ReasoningOnly);
    assert FirstApplicable(rules, 2, L, ReasoningOnly)
             == if RuleApplies(rules[2], L) then Command else FirstApplicable(rules, 3, L, ReasoningOnly);
    assert FirstApplicable(rules, 1, L, ReasoningOnly)
             == if RuleApplies(rules[1], L) then Question else FirstApplicable(rules, 2, L, ReasoningOnly);
    assert FirstApplicable(rules, 0, L, ReasoningOnly)
             == if RuleApplies(rules[0], L) then ReasoningOnly else FirstApplicable(rules, 1, L, ReasoningOnly);
  }

  /** Matching is by substring: any input containing "show" contains "how", so the
      heuristic never calls it a command, tool request or multi-step task. */
  lemma ShowCountsAsInterrogative(lowered: string)
    requires Contains(lowered, "show")
    ensures KeywordCategory(lowered) == Question || KeywordCategory(lowered) == ReasoningOnly
  {
    assert OccursAt("show", "how", 1) by { assert "show"[1..4] == "how"; }
    ContainsTransitive(lowered, "show", "how", 1);
    assert Interrogatives[1] == "how";
  }

  /** Layer 1. The reply is stripped and split on '|'. With three or more fields the
      stripped lower-cased first field must be an enum value and the second a number,
      otherwise the ValueError handler yields QUESTION with 0.5. With fewer fields the
      keyword heuristic decides, with confidence 0.7. */
  function ClassifyIntent(userInput: string, reply: string, parseFloat: string -> Option<real>): Intent {
    match ClassifyFields(Split(Strip(reply), '|'), parseFloat)
    case Some(intent) => intent
    case None => FallbackIntent(userInput)
  }

  /** The decision on the '|'-separated fields of the stripped reply, or None when there are
      fewer than three fields and the heuristic decides instead. */
  function ClassifyFields(parts: seq<string>, parseFloat: string -> Option<real>): Option<Intent> {
    if |parts| < 3 then None
    else match IntentFromValue(Strip(Lower(parts[0])))
      case None => Some(InvalidClassification)
      case Some(t) =>
        match parseFloat(parts[1])
        case None => Some(InvalidClassification)
        case Some(c) => Some(Intent(t, c, parts[2]))
  }

  /** The heuristic's intent, used when the reply has fewer than three fields. */
  function FallbackIntent(userInput: string): Intent {
    Intent(KeywordCategory(Lower(userInput)), 0.7, "Fallback classification")
  }

  const InvalidClassification := Intent(Question, 0.5, "Invalid classification, defaulted to question")

  /** A reply with three or more fields whose category and confidence parse gives exactly
      that category, that confidence and the third field; if either does not parse, the
      result is QUESTION with 0.5. */
  lemma ClassifyStructuredReply(userInput: string, reply: string, parseFloat: string -> Option<real>)
    requires |Split(Strip(reply), '|')| >= 3
    ensures var parts := Split(Strip(reply), '|');
            var t := IntentFromValue(Strip(Lower(parts[0])));
            var c := parseFloat(parts[1]);
            ClassifyIntent(userInput, reply, parseFloat)
              == if t.Some? && c.Some? then Intent(t.value, c.value, parts[2]) else InvalidClassification
  {
    ClassifyThreeOrMore(Split(Strip(reply), '|'), parseFloat);
  }

  /** The decision on three or more fields, whatever text they came from. */
  lemma ClassifyThreeOrMore(parts: seq<string>, parseFloat: string -> Option<real>)
    requires |parts| >= 3
    ensures var t := IntentFromValue(Strip(Lower(parts[0])));
            var c := parseFloat(parts[1]);
            ClassifyFields(parts, parseFloat)
              == Some(if t.Some? && c.Some? then Intent(t.value, c.value, parts[2]) else InvalidClassification)
  {
  }

  /** A reply with fewer than three fields is ignored in favour of the keyword heuristic. */
  lemma ClassifyFallback(userInput: string, reply: string, parseFloat: string -> Option<real>)
    requires |Split(Strip(reply), '|')| < 3
    ensures ClassifyIntent(userInput, reply, parseFloat)
              == Intent(KeywordCategory(Lower(userInput)), 0.7, "Fallback classification")
  {
  }

  /** Each member name lower-cases to the member's value. */
  lemma LowerLabel(t: IntentType)
    ensures Lower(IntentLabel(t)) == IntentValue(t)
  {
    match t
    case Question => LowerQuestionLabel();
    case Command => LowerCommandLabel();
    case MultiStepTask => LowerMultiStepTaskLabel();
    case ToolRequest => LowerToolRequestLabel();
    case ReasoningOnly => LowerReasoningOnlyLabel();
  }

  lemma LowerQuestionLabel()
    ensures Lower(IntentLabel(Question)) == IntentValue(Question)
  {
    var l, v := IntentLabel(Question), IntentValue(Question);
    assert forall i :: 0 <= i < |l| ==> Lower(l)[i] == v[i];
  }

  lemma LowerCommandLabel()
    ensures Lower(IntentLabel(Command)) == IntentValue(Command)
  {
    var l, v := IntentLabel(Command), IntentValue(Command);
    assert forall i :: 0 <= i < |l| ==> Lower(l)[i] == v[i];
  }

  lemma LowerMultiStepTaskLabel()
    ensures Lower(IntentLabel(MultiStepTask)) == IntentValue(MultiStepTask)
  {
    var l, v := IntentLabel(MultiStepTask), IntentValue(MultiStepTask);
    assert forall i :: 0 <= i < |l| ==> Lower(l)[i] == v[i];
  }

  lemma LowerToolRequestLabel()
    ensures Lower(IntentLabel(ToolRequest)) == IntentValue(ToolRequest)
  {
    var l, v := IntentLabel(ToolRequest), IntentValue(ToolRequest);
    assert forall i :: 0 <= i < |l| ==> Lower(l)[i] == v[i];
  }

  lemma LowerReasoningOnlyLabel()
    ensures Lower(IntentLabel(ReasoningOnly)) == IntentValue(ReasoningOnly)
  {
    var l, v := IntentLabel(ReasoningOnly), IntentValue(ReasoningOnly);
    assert forall i :: 0 <= i < |l| ==> Lower(l)[i] == v[i];
  }

  /** The label the prompt asks for is read back as its own member. */
  lemma LabelParses(t: IntentType)
    ensures IntentFromValue(Strip(Lower(IntentLabel(t)))) == Some(t)
  {
    var v := IntentValue(t);
    LowerLabel(t);
    assert !IsSpace(v[0]) && !IsSpace(v[|v| - 1]) by {
      assert 'a' <= v[0] <= 'z' && 'a' <= v[|v| - 1] <= 'z';
    }
    StripClean(v);
    IntentValueLookup(v, t);
  }

  lemma SplitThree(a: string, b: string, c: string, sep: char)
    requires sep !in a && sep !in b && sep !in c
    ensures Split(a + [sep] + b + [sep] + c, sep) == [a, b, c]
  {
    assert a + [sep] + b + [sep] + c == a + [sep] + (b + [sep] + c);
    SplitFront(a, sep, b + [sep] + c);
    SplitFront(b, sep, c);
    SplitNone(c, sep);
  }

  /** A reply `name|confText|desc` whose fields hold no '|' and which has nothing to strip
      is decided on exactly those three fields. */
  lemma ClassifyThreeFields(userInput: string, name: string, confText: string, desc: string,
                            parseFloat: string -> Option<real>)
    requires '|' !in name && '|' !in confText && '|' !in desc
    requires var reply := name + "|" + confText + "|" + desc; Strip(reply) == reply
    ensures ClassifyFields([name, confText, desc], parseFloat)
              == Some(ClassifyIntent(userInput, name + "|" + confText + "|" + desc, parseFloat))
  {
    var reply := name + "|" + confText + "|" + desc;
    SplitThree(name, confText, desc, '|');
    assert Split(reply, '|') == [name, confText, desc];
    ClassifyCleanReply(userInput, reply, parseFloat);
  }

  /** A reply with nothing to strip is split as it stands. */
  lemma ClassifyCleanReply(userInput: string, reply: string, parseFloat: string -> Option<real>)
    requires Strip(reply) == reply
    ensures |Split(reply, '|')| >= 3 ==> ClassifyFields(Split(reply, '|'), parseFloat) == Some(ClassifyIntent(userInput, reply, parseFloat))
    ensures |Split(reply, '|')| < 3 ==> ClassifyIntent(userInput, reply, parseFloat) == FallbackIntent(userInput)
  {
  }

  lemma ClassifyParsedFields(name: string, confText: string, desc: string, t: IntentType,
                             parseFloat: string -> Option<real>)
    requires IntentFromValue(Strip(Lower(name))) == Some(t)
    requires parseFloat(confText).Some?
    ensures ClassifyFields([name, confText, desc], parseFloat) == Some(Intent(t, parseFloat(confText).value, desc))
  {
    var parts := [name, confText, desc];
    assert parts[0] == name && parts[1] == confText && parts[2] == desc;
    ClassifyThreeOrMore(parts, parseFloat);
  }

  /** A reply in the format the prompt asks for, `CATEGORY|confidence|description`, is
      read back as exactly that intent, provided the fields hold no '|' and the
      description does not end in whitespace (the whole reply is stripped first). */
  lemma ClassifyFormattedReply(userInput: string, t: IntentType, confText: string, desc: string,
                               parseFloat: string -> Option<real>)
    requires '|' !in confText && '|' !in desc
    requires desc == [] || !IsSpace(desc[|desc| - 1])
    requires parseFloat(confText).Some?
    ensures ClassifyIntent(userInput, IntentLabel(t) + "|" + confText + "|" + desc, parseFloat)
              == Intent(t, parseFloat(confText).value, desc)
  {
    var name := IntentLabel(t);
    LabelShape(t);
    FormattedReplyIsClean(name, confText, desc);
    LabelParses(t);
    ClassifyThreeFields(userInput, name, confText, desc, parseFloat);
    ClassifyParsedFields(name, confText, desc, t, parseFloat);
  }

  /** Every member name starts with a capital letter and holds no '|'. */
  lemma LabelShape(t: IntentType)
    ensures |IntentLabel(t)| > 0 && 'A' <= IntentLabel(t)[0] <= 'Z' && '|' !in IntentLabel(t)
  {
  }

  /** A reply that starts with a non-space and whose description does not end in one has
      nothing to strip. */
  lemma FormattedReplyIsClean(name: string, confText: string, desc: string)
    requires |name| > 0 && !IsSpace(name[0])
    requires desc == [] || !IsSpace(desc[|desc| - 1])
    ensures Strip(name + "|" + confText + "|" + desc) == name + "|" + confText + "|" + desc
  {
    var reply := name + "|" + confText + "|" + desc;
    assert reply[0] == name[0];
    assert reply[|reply| - 1] == if desc == [] then '|' else desc[|desc| - 1];
    StripClean(reply);
  }

  // ================================================================ layer 2: planning

  const DefaultGoal := "Complete user request"
  const DefaultSteps: seq<string> := ["Execute request"]
  const ReasoningPlan := Plan("Provide reasoning", ["Think and respond"], [], 1)

  /** The text after `tag` on the last line that starts with it. */
  function LastLabelled(lines: seq<string>, tag: string): Option<string>
    decreases |lines|
  {
    if |lines| == 0 then None
    else
      var line := lines[|lines| - 1];
      if StartsWith(line, tag) then Some(line[|tag|..])
      else LastLabelled(lines[..|lines| - 1], tag)
  }

  /** `[s.strip() for s in pieces]`. */
  function StripAll(pieces: seq<string>): (r: seq<string>)
    ensures |r| == |pieces|
  {
    seq(|pieces|, i requires 0 <= i < |pieces| => Strip(pieces[i]))
  }

  /** Each step is its piece, stripped. */
  lemma StripAllPointwise(pieces: seq<string>)
    ensures forall i :: 0 <= i < |pieces| ==> StripAll(pieces)[i] == Strip(pieces[i])
  {
  }

  /** `[t.strip() for t in pieces if t.strip()]`. */
  function StrippedNonEmpty(pieces: seq<string>): seq<string>
    decreases |pieces|
  {
    if |pieces| == 0 then []
    else
      var rest := StrippedNonEmpty(pieces[1..]);
      var t := Strip(pieces[0]);
      if t != [] then [t] + rest else rest
  }

  /** No kept name is empty or padded with whitespace. */
  lemma {:induction false} StrippedNonEmptyClean(pieces: seq<string>)
    ensures forall name :: name in StrippedNonEmpty(pieces) ==> name != [] && Strip(name) == name
    decreases |pieces|
  {
    if |pieces| > 0 {
      StrippedNonEmptyClean(pieces[1..]);
      StripIdempotent(pieces[0]);
    }
  }

  /** The kept names are exactly the non-empty stripped pieces. */
  lemma {:induction false} StrippedNonEmptyMembers(pieces: seq<string>, name: string)
    ensures name in StrippedNonEmpty(pieces) <==> name != [] && exists p :: p in pieces && Strip(p) == name
    decreases |pieces|
  {
    if |pieces| > 0 {
      StrippedNonEmptyMembers(pieces[1..], name);
      assert forall p :: p in pieces <==> p == pieces[0] || p in pieces[1..];
    }
  }

  function GoalIn(lines: seq<string>): string {
    match LastLabelled(lines, "GOAL:")
    case None => DefaultGoal
    case Some(v) => Strip(v)
  }

  function StepsIn(lines: seq<string>): (r: seq<string>)
    ensures |r| >= 1
  {
    match LastLabelled(lines, "STEPS:")
    case None => DefaultSteps
    case Some(v) => StripAll(Split(v, '|'))
  }

  function ToolsIn(lines: seq<string>): seq<string> {
    match LastLabelled(lines, "TOOLS:")
    case None => []
    case Some(v) => StrippedNonEmpty(Split(v, '|'))
  }

  /** `int(...)` on the last COMPLEXITY line, 1 when it does not parse or there is none. */
  function ComplexityIn(lines: seq<string>): int {
    match LastLabelled(lines, "COMPLEXITY:")
    case None => 1
    case Some(v) => ParseInt(Strip(v)).GetOr(1)
  }

  /** The plan the labelled lines describe: for each field, its last labelled line, or the default. */
  function PlanOfLines(lines: seq<string>): (p: Plan)
    ensures |p.steps| >= 1
  {
    Plan(GoalIn(lines), StepsIn(lines), ToolsIn(lines), ComplexityIn(lines))
  }

  /** The plan `create_plan` returns for this intent and planning reply. */
  function PlanFor(intent: Intent, reply: string): (p: Plan)
    ensures |p.steps| >= 1
  {
    if intent.kind == ReasoningOnly then ReasoningPlan else PlanOfLines(Split(Strip(reply), '\n'))
  }

  predicate Unlabelled(line: string) {
    !StartsWith(line, "GOAL:") && !StartsWith(line, "STEPS:")
    && !StartsWith(line, "TOOLS:") && !StartsWith(line, "COMPLEXITY:")
  }

  lemma LastLabelledAppend(lines: seq<string>, line: string, tag: string)
    ensures LastLabelled(lines + [line], tag)
              == if StartsWith(line, tag) then Some(line[|tag|..]) else LastLabelled(lines, tag)
  {
    assert (lines + [line])[..|lines|] == lines;
  }

  /** The four labels start with different letters, so a line carries at most one. */
  lemma LabelsExclusive(line: string)
    ensures StartsWith(line, "GOAL:") ==> !StartsWith(line, "STEPS:") && !StartsWith(line, "TOOLS:") && !StartsWith(line, "COMPLEXITY:")
    ensures StartsWith(line, "STEPS:") ==> !StartsWith(line, "TOOLS:") && !StartsWith(line, "COMPLEXITY:")
    ensures StartsWith(line, "TOOLS:") ==> !StartsWith(line, "COMPLEXITY:")
  {
    if |line| > 0 {
      assert StartsWith(line, "GOAL:") ==> line[0] == 'G' by { if StartsWith(line, "GOAL:") { assert line[..5][0] == line[0]; } }
      assert StartsWith(line, "STEPS:") ==> line[0] == 'S' by { if StartsWith(line, "STEPS:") { assert line[..6][0] == line[0]; } }
      assert StartsWith(line, "TOOLS:") ==> line[0] == 'T' by { if StartsWith(line, "TOOLS:") { assert line[..6][0] == line[0]; } }
      assert StartsWith(line, "COMPLEXITY:") ==> line[0] == 'C' by { if StartsWith(line, "COMPLEXITY:") { assert line[..11][0] == line[0]; } }
    }
  }

  /** A later GOAL line overrides every earlier one and leaves the other fields alone. */
  lemma LaterGoalOverrides(lines: seq<string>, line: string)
    requires StartsWith(line, "GOAL:")
    ensures PlanOfLines(lines + [line]) == PlanOfLines(lines).(goal := Strip(line[5..]))
  {
    LabelsExclusive(line);
    LastLabelledAppend(lines, line, "GOAL:");
    LastLabelledAppend(lines, line, "STEPS:");
    LastLabelledAppend(lines, line, "TOOLS:");
    LastLabelledAppend(lines, line, "COMPLEXITY:");
  }

  /** A later STEPS line overrides every earlier one and leaves the other fields alone. */
  lemma LaterStepsOverride(lines: seq<string>, line: string)
    requires StartsWith(line, "STEPS:")
    ensures PlanOfLines(lines + [line]) == PlanOfLines(lines).(steps := StripAll(Split(line[6..], '|')))
  {
    LabelsExclusive(line);
    LastLabelledAppend(lines, line, "GOAL:");
    LastLabelledAppend(lines, line, "STEPS:");
    LastLabelledAppend(lines, line, "TOOLS:");
    LastLabelledAppend(lines, line, "COMPLEXITY:");
  }

  /** A later TOOLS line overrides every earlier one and leaves the other fields alone. */
  lemma LaterToolsOverride(lines: seq<string>, line: string)
    requires StartsWith(line, "TOOLS:")
    ensures PlanOfLines(lines + [line]) == PlanOfLines(lines).(toolsNeeded := StrippedNonEmpty(Split(line[6..], '|')))
  {
    LabelsExclusive(line);
    LastLabelledAppend(lines, line, "GOAL:");
    LastLabelledAppend(lines, line, "STEPS:");
    LastLabelledAppend(lines, line, "TOOLS:");
    LastLabelledAppend(lines, line, "COMPLEXITY:");
  }

  /** A later COMPLEXITY line decides the complexity on its own: its number, or 1 when it
      does not parse (not the value of an earlier line). */
  lemma LaterComplexityOverrides(lines: seq<string>, line: string)
    requires StartsWith(line, "COMPLEXITY:")
    ensures PlanOfLines(lines + [line])
              == PlanOfLines(lines).(estimatedComplexity := ParseInt(Strip(line[11..])).GetOr(1))
    ensures ParseInt(Strip(line[11..])).None? ==> PlanOfLines(lines + [line]).estimatedComplexity == 1
  {
    LabelsExclusive(line);
    LastLabelledAppend(lines, line, "GOAL:");
    LastLabelledAppend(lines, line, "STEPS:");
    LastLabelledAppend(lines, line, "TOOLS:");
    LastLabelledAppend(lines, line, "COMPLEXITY:");
  }

  /** Lines without a tag change nothing. */
  lemma UnlabelledLineIgnored(lines: seq<string>, line: string)
    requires Unlabelled(line)
    ensures PlanOfLines(lines + [line]) == PlanOfLines(lines)
  {
    LastLabelledAppend(lines, line, "GOAL:");
    LastLabelledAppend(lines, line, "STEPS:");
    LastLabelledAppend(lines, line, "TOOLS:");
    LastLabelledAppend(lines, line, "COMPLEXITY:");
  }

  /** Every plan has a step, and no listed tool is empty or padded with whitespace. A
      REASONING_ONLY intent always gets the fixed one-step plan without tools. */
  lemma PlanWellFormed(intent: Intent, reply: string)
    ensures |PlanFor(intent, reply).steps| >= 1
    ensures forall name :: name in PlanFor(intent, reply).toolsNeeded ==> name != [] && Strip(name) == name
    ensures intent.kind == ReasoningOnly ==> PlanFor(intent, reply) == Plan("Provide reasoning", ["Think and respond"], [], 1)
  {
    if intent.kind != ReasoningOnly {
      match LastLabelled(Split(Strip(reply), '\n'), "TOOLS:")
      case None =>
      case Some(v) => StrippedNonEmptyClean(Split(v, '|'));
    }
  }

  /** What one line does to the plan built so far, as the loop body of `create_plan`. */
  function NextPlan(p: Plan, line: string): Plan {
    if StartsWith(line, "GOAL:") then p.(goal := Strip(line[5..]))
    else if StartsWith(line, "STEPS:") then p.(steps := StripAll(Split(line[6..], '|')))
    else if StartsWith(line, "TOOLS:") then p.(toolsNeeded := StrippedNonEmpty(Split(line[6..], '|')))
    else if StartsWith(line, "COMPLEXITY:") then p.(estimatedComplexity := ParseInt(Strip(line[11..])).GetOr(1))
    else p
  }

  /** The plan the loop holds after the first `n` lines: the defaults, then each line in turn. */
  function ScanLines(lines: seq<string>, n: nat): Plan
    requires n <= |lines|
    decreases n
  {
    if n == 0 then Plan(DefaultGoal, DefaultSteps, [], 1)
    else NextPlan(ScanLines(lines, n - 1), lines[n - 1])
  }

  /** One more line moves the labelled-lines plan by one loop step. */
  lemma NextPlanOfLines(lines: seq<string>, line: string)
    ensures PlanOfLines(lines + [line]) == NextPlan(PlanOfLines(lines), line)
  {
    if StartsWith(line, "GOAL:") {
      LaterGoalOverrides(lines, line);
    } else if StartsWith(line, "STEPS:") {
      LaterStepsOverride(lines, line);
    } else if StartsWith(line, "TOOLS:") {
      LaterToolsOverride(lines, line);
    } else if StartsWith(line, "COMPLEXITY:") {
      LaterComplexityOverrides(lines, line);
    } else {
      UnlabelledLineIgnored(lines, line);
    }
  }

  /** Scanning the lines one at a time from the defaults gives the plan in which every
      field comes from its last labelled line. */
  lemma {:induction false} ScanLinesIsPlanOfLines(lines: seq<string>, n: nat)
    requires n <= |lines|
    ensures ScanLines(lines, n) == PlanOfLines(lines[..n])
    decreases n
  {
    if n > 0 {
      var front, line := lines[..n - 1], lines[n - 1];
      assert front + [line] == lines[..n];
      calc {
        ScanLines(lines, n);
        NextPlan(ScanLines(lines, n - 1), line);
        { ScanLinesIsPlanOfLines(lines, n - 1); }
        NextPlan(PlanOfLines(front), line);
        { NextPlanOfLines(front, line); }
        PlanOfLines(front + [line]);
      }
    }
  }

  /** The body of `create_plan`'s loop on line `i`: a labelled line resets its own field. */
  method ReadPlanLine(lines: seq<string>, i: nat, goal: string, steps: seq<string>, toolsNeeded: seq<string>, complexity: int)
    returns (goal': string, steps': seq<string>, toolsNeeded': seq<string>, complexity': int)
    requires i < |lines| && Plan(goal, steps, toolsNeeded, complexity) == ScanLines(lines, i)
    ensures Plan(goal', steps', toolsNeeded', complexity') == ScanLines(lines, i + 1)
  {
    var line := lines[i];
    assert ScanLines(lines, i + 1) == NextPlan(Plan(goal, steps, toolsNeeded, complexity), line);
    goal', steps', toolsNeeded', complexity' := goal, steps, toolsNeeded, complexity;
    if StartsWith(line, "GOAL:") {
      goal' := Strip(line[5..]);
    } else if StartsWith(line, "STEPS:") {
      steps' := StripAll(Split(line[6..], '|'));
    } else if StartsWith(line, "TOOLS:") {
      toolsNeeded' := StrippedNonEmpty(Split(line[6..], '|'));
    } else if StartsWith(line, "COMPLEXITY:") {
      complexity' := ParseInt(Strip(line[11..])).GetOr(1);
    }
  }

  /** Layer 2: `create_plan`. A REASONING_ONLY intent gets the fixed plan; otherwise the
      stripped reply is scanned line by line from the defaults, each labelled line resetting
      its own field. */
  method CreatePlan(userInput: string, intent: Intent, reply: string) returns (plan: Plan)
    ensures plan == PlanFor(intent, reply)
  {
    if intent.kind == ReasoningOnly {
      return ReasoningPlan;
    }
    var lines := Split(Strip(reply), '\n');
    plan := ReadPlanLines(lines);
  }

  /** The loop of `create_plan`: from the defaults, each line in turn. */
  method ReadPlanLines(lines: seq<string>) returns (plan: Plan)
    ensures plan == ScanLines(lines, |lines|)
    ensures plan == PlanOfLines(lines)
  {
    var goal := DefaultGoal;
    var steps := DefaultSteps;
    var toolsNeeded: seq<string> := [];
    var complexity := 1;
    var i := 0;
    while i < |lines|
      invariant 0 <= i <= |lines|
      invariant Plan(goal, steps, toolsNeeded, complexity) == ScanLines(lines, i)
    {
      goal, steps, toolsNeeded, complexity := ReadPlanLine(lines, i, goal, steps, toolsNeeded, complexity);
      i := i + 1;
    }
    plan := Plan(goal, steps, toolsNeeded, complexity);
    ScanLinesIsPlanOfLines(lines, |lines|);
    assert lines[..|lines|] == lines;
  }

  // ================================================================ parameters as an ordered dict

  function Keys(d: Params): (r: seq<string>)
    ensures |r| == |d| && forall i :: 0 <= i < |d| ==> r[i] == d[i].0
  {
    seq(|d|, i requires 0 <= i < |d| => d[i].0)
  }

  /** `d.get(k)`. */
  function Lookup(d: Params, k: string): Option<string>
    decreases |d|
  {
    if |d| == 0 then None
    else if d[0].0 == k then Some(d[0].1)
    else Lookup(d[1..], k)
  }

  predicate DistinctKeys(d: Params) {
    forall i, j :: 0 <= i < j < |d| ==> d[i].0 != d[j].0
  }

  /** `d[k] = v`. */
  function Assign(d: Params, k: string, v: string): Params
    decreases |d|
  {
    if |d| == 0 then [(k, v)]
    else if d[0].0 == k then [(k, v)] + d[1..]
    else [d[0]] + Assign(d[1..], k, v)
  }

  /** An existing key keeps its place; a new key goes last. */
  lemma {:induction false} AssignKeys(d: Params, k: string, v: string)
    ensures Keys(Assign(d, k, v)) == if k in Keys(d) then Keys(d) else Keys(d) + [k]
    decreases |d|
  {
    if |d| > 0 && d[0].0 != k {
      AssignKeys(d[1..], k, v);
      assert Keys(d) == [d[0].0] + Keys(d[1..]);
      assert Keys([d[0]] + Assign(d[1..], k, v)) == [d[0].0] + Keys(Assign(d[1..], k, v));
    } else if |d| > 0 {
      assert Keys([(k, v)] + d[1..]) == [k] + Keys(d[1..]);
      assert Keys(d) == [k] + Keys(d[1..]);
    }
  }

  /** After `d[k] = v`, `k` maps to `v` and every other key to what it mapped to before. */
  lemma {:induction false} AssignLookup(d: Params, k: string, v: string, k': string)
    ensures Lookup(Assign(d, k, v), k') == if k' == k then Some(v) else Lookup(d, k')
    decreases |d|
  {
    if |d| > 0 && d[0].0 != k {
      AssignLookup(d[1..], k, v, k');
      assert ([d[0]] + Assign(d[1..], k, v))[1..] == Assign(d[1..], k, v);
    }
  }

  /** The stripped key of every piece that holds '=', in order. */
  function PieceKeys(pieces: seq<string>): seq<string>
    decreases |pieces|
  {
    if |pieces| == 0 then []
    else
      var earlier := PieceKeys(pieces[..|pieces| - 1]);
      match SplitFirst(pieces[|pieces| - 1], '=')
      case None => earlier
      case Some(kv) => earlier + [Strip(kv.0)]
  }

  /** The elements of `xs` in order of first occurrence. */
  function FirstOccurrences(xs: seq<string>): (r: seq<string>)
    ensures forall i, j :: 0 <= i < j < |r| ==> r[i] != r[j]
    ensures forall x :: x in r <==> x in xs
    decreases |xs|
  {
    if |xs| == 0 then []
    else
      var r := FirstOccurrences(xs[..|xs| - 1]);
      assert forall x :: x in xs <==> x in xs[..|xs| - 1] || x == xs[|xs| - 1];
      if xs[|xs| - 1] in r then r else r + [xs[|xs| - 1]]
  }

  /** The stripped value of the last piece whose stripped key is `k`. */
  function LastValue(pieces: seq<string>, k: string): Option<string>
    decreases |pieces|
  {
    if |pieces| == 0 then None
    else match SplitFirst(pieces[|pieces| - 1], '=')
      case Some(kv) =>
        if Strip(kv.0) == k then Some(Strip(kv.1)) else LastValue(pieces[..|pieces| - 1], k)
      case None => LastValue(pieces[..|pieces| - 1], k)
  }

  /** One piece of the reply: skipped without '=', else its stripped key is assigned. */
  function AddPiece(d: Params, piece: string): Params {
    match SplitFirst(piece, '=')
    case None => d
    case Some(kv) => Assign(d, Strip(kv.0), Strip(kv.1))
  }

  /** The dict the loop over `k=v` pieces builds, piece by piece. */
  function ParamsFromPieces(pieces: seq<string>): Params
    decreases |pieces|
  {
    if |pieces| == 0 then []
    else AddPiece(ParamsFromPieces(pieces[..|pieces| - 1]), pieces[|pieces| - 1])
  }

  /** The parameters read from the model's `k=v|k=v` reply; `NONE` means none. */
  function ParamsFromReply(reply: string): Params {
    if Strip(reply) == "NONE" then [] else ParamsFromPieces(Split(Strip(reply), '|'))
  }

  /** The reply `NONE` (surrounding whitespace aside) yields no parameters. */
  lemma NoneReplyGivesNoParameters(reply: string)
    requires Strip(reply) == "NONE"
    ensures ParamsFromReply(reply) == []
  {
  }

  /** The dict holds the keys of the pieces with '=', each once, in order of first appearance. */
  lemma {:induction false} ParamsKeysInFirstOrder(pieces: seq<string>)
    ensures Keys(ParamsFromPieces(pieces)) == FirstOccurrences(PieceKeys(pieces))
    decreases |pieces|
  {
    if |pieces| > 0 {
      var front := pieces[..|pieces| - 1];
      ParamsKeysInFirstOrder(front);
      match SplitFirst(pieces[|pieces| - 1], '=')
      case None =>
        assert PieceKeys(pieces) == PieceKeys(front);
        assert ParamsFromPieces(pieces) == ParamsFromPieces(front);
      case Some(kv) =>
        var d := ParamsFromPieces(front);
        var k := Strip(kv.0);
        AssignKeys(d, k, Strip(kv.1));
        var ks := PieceKeys(front) + [k];
        assert PieceKeys(pieces) == ks;
        assert ParamsFromPieces(pieces) == Assign(d, k, Strip(kv.1));
        assert ks[..|ks| - 1] == PieceKeys(front) && ks[|ks| - 1] == k;
        assert FirstOccurrences(ks) == if k in Keys(d) then Keys(d) else Keys(d) + [k];
    }
  }

  /** Each key is bound to the stripped value of its last piece: later pieces override. */
  lemma {:induction false} ParamsValueIsLast(pieces: seq<string>, k: string)
    ensures Lookup(ParamsFromPieces(pieces), k) == LastValue(pieces, k)
    decreases |pieces|
  {
    if |pieces| > 0 {
      var front := pieces[..|pieces| - 1];
      ParamsValueIsLast(front, k);
      match SplitFirst(pieces[|pieces| - 1], '=')
      case None =>
      case Some(kv) => AssignLookup(ParamsFromPieces(front), Strip(kv.0), Strip(kv.1), k);
    }
  }

  /** A piece without '=' is skipped; one with '=' assigns its stripped key its stripped value. */
  lemma ParamsFromPiecesStep(pieces: seq<string>, piece: string)
    ensures ParamsFromPieces(pieces + [piece]) == AddPiece(ParamsFromPieces(pieces), piece)
    ensures '=' !in piece ==> ParamsFromPieces(pieces + [piece]) == ParamsFromPieces(pieces)
    ensures '=' in piece ==>
              var kv := SplitFirst(piece, '=').value;
              ParamsFromPieces(pieces + [piece]) == Assign(ParamsFromPieces(pieces), Strip(kv.0), Strip(kv.1))
  {
    assert (pieces + [piece])[..|pieces|] == pieces;
  }

  /** Layer 4's `k=v` reader for the model's reply: the stripped reply `NONE` gives no
      parameters; otherwise each '|'-piece holding '=' is split at its first '=' and binds
      its stripped key to its stripped value. */
  method ParseParameterReply(reply: string) returns (parameters: Params)
    ensures parameters == ParamsFromReply(reply)
  {
    var content := Strip(reply);
    if content == "NONE" {
      parameters := [];
    } else {
      parameters := CollectParameters(Split(content, '|'));
    }
  }

  /** The loop body: a piece holding '=' is split at its first '=' and stored stripped. */
  method StorePiece(parameters: Params, piece: string) returns (next: Params)
    ensures next == AddPiece(parameters, piece)
  {
    next := parameters;
    if '=' in piece {
      var kv := SplitFirst(piece, '=').value;
      next := Assign(parameters, Strip(kv.0), Strip(kv.1));
    }
  }

  /** The loop over the `k=v` pieces, assigning into an initially empty dict. */
  method CollectParameters(pieces: seq<string>) returns (parameters: Params)
    ensures parameters == ParamsFromPieces(pieces)
  {
    parameters := [];
    var i := 0;
    while i < |pieces|
      invariant 0 <= i <= |pieces|
      invariant parameters == ParamsFromPieces(pieces[..i])
    {
      assert pieces[..i + 1] == pieces[..i] + [pieces[i]];
      ParamsFromPiecesStep(pieces[..i], pieces[i]);
      parameters := StorePiece(parameters, pieces[i]);
      i := i + 1;
    }
    assert pieces[..|pieces|] == pieces;
  }

  // ================================================================ layer 4: parameter extraction

  /** The last word of the input, or `otherwise` when it has none. */
  function LastWord(userInput: string, otherwise: string): string {
    var words := Words(userInput);
    if |words| > 0 then words[|words| - 1] else otherwise
  }

  /** read_file_tool: the word after read/show/display, else the last word, else ".". */
  function ReadFileParams(userInput: string): Params {
    match ReadSearch(userInput)
    case Some(g) => [("path", Strip(g))]
    case None => [("path", LastWord(userInput, "."))]
  }

  /** write_file_tool: "create|write P with|containing C", else the last word (of two or
      more) with "default content", else "default.txt". */
  function WriteFileParams(userInput: string): Params {
    match WriteSearch(userInput)
    case Some(g) => [("path", Strip(g.0)), ("content", Strip(g.1))]
    case None =>
      var words := Words(userInput);
      if |words| >= 2 then [("path", words[|words| - 1]), ("content", "default content")]
      else [("path", "default.txt"), ("content", "default content")]
  }

  /** run_shell_tool: the rest of the line after run/execute, else a harmless echo. */
  function ShellParams(userInput: string): Params {
    match ShellSearch(userInput)
    case Some(g) => [("command", Strip(g))]
    case None => [("command", "echo 'no command specified'")]
  }

  /** The parameters a tool is called with: text patterns for four tools, the model's
      `k=v` reply for the others. */
  function ExtractParameters(toolName: string, userInput: string, paramReply: string): Params {
    if toolName == "read_file_tool" then ReadFileParams(userInput)
    else if toolName == "write_file_tool" then WriteFileParams(userInput)
    else if toolName == "list_directory_tool" then [("path", ".")]
    else if toolName == "run_shell_tool" then ShellParams(userInput)
    else ParamsFromReply(paramReply)
  }

  /** Each tool with a text rule gets exactly its own keys, whatever the input. */
  lemma ExtractionShapes(userInput: string, paramReply: string)
    ensures ExtractParameters("list_directory_tool", userInput, paramReply) == [("path", ".")]
    ensures Keys(ExtractParameters("read_file_tool", userInput, paramReply)) == ["path"]
    ensures Keys(ExtractParameters("write_file_tool", userInput, paramReply)) == ["path", "content"]
    ensures Keys(ExtractParameters("run_shell_tool", userInput, paramReply)) == ["command"]
  {
  }

  /** Without a match, write_file_tool falls back to the last word as the path (for two
      or more words) or to "default.txt", always with "default content". */
  lemma WriteFallback(userInput: string)
    requires WriteSearch(userInput).None?
    ensures var words := Words(userInput);
            WriteFileParams(userInput)
              == [("path", if |words| >= 2 then words[|words| - 1] else "default.txt"), ("content", "default content")]
  {
  }

  /** Without a match, run_shell_tool gets the fixed echo command. */
  lemma ShellFallback(userInput: string)
    requires ShellSearch(userInput).None?
    ensures ShellParams(userInput) == [("command", "echo 'no command specified'")]
  {
  }

  /** "run " followed by a one-line command with no surrounding whitespace gives exactly
      that command. */
  lemma ShellCommandAfterRun(command: string)
    requires |command| > 0 && !IsSpace(command[0]) && '\n' !in command
    requires Strip(command) == command
    ensures ShellParams("run " + command) == [("command", command)]
  {
    var s := "run " + command;
    assert s[0..3] == "run" && s[3] == ' ' && s[4] == command[0];
    assert KeywordAt(s, 0, "run");
    assert SpaceRun(s, 3) == 1 by { assert SpaceRun(s, 4) == 0; }
    assert forall j :: 4 <= j < |s| ==> s[j] == command[j - 4];
    assert LineEnd(s, 4) == |s|;
    ShellSearchAtStart(s, "run");
    assert s[4..|s|] == command;
  }

  /** `read  ` (two trailing spaces) matches the read pattern with one given-back space
      as its group, so the path is empty. */
  lemma ReadPathOfTrailingSpaces()
    ensures ReadFileParams("read  ") == [("path", "")]
  {
    var two := "read  ";
    assert KeywordAt(two, 0, "read") by { assert two[0..4] == "read"; assert Lower("read") == "read"; }
    assert KeywordEnd(two, 0, ReadVerbs) == Some(4) by { assert ReadVerbs[0] == "read"; }
    assert SpaceRun(two, 4) == 2 by { assert SpaceRun(two, 5) == 1; assert SpaceRun(two, 6) == 0; }
    assert GiveBack(two, 4, 1) == Some(1) by { assert two[5] == ' '; }
    assert two[5..6] == " ";
    assert ReadGroupAt(two, 0) == Some(" ");
    assert Strip(" ") == "" by { assert TrimStart(" ") == TrimStart("") == ""; }
  }

  /** The call made with a parameter dict: none, one positional value, or keywords. */
  function CallFor(parameters: Params): ToolCall {
    if |parameters| == 0 then NoArguments
    else if |parameters| == 1 then Positional(parameters[0].1)
    else Keywords(parameters)
  }

  /** The tools with a text rule are called with their one value positionally, except the
      write tool, which gets `path` and `content` as keywords; an empty reply-derived dict
      means a call without arguments. */
  lemma CallShapes(userInput: string, paramReply: string)
    ensures CallFor(ExtractParameters("list_directory_tool", userInput, paramReply)) == Positional(".")
    ensures CallFor(ExtractParameters("read_file_tool", userInput, paramReply))
              == Positional(ReadFileParams(userInput)[0].1)
    ensures CallFor(ExtractParameters("run_shell_tool", userInput, paramReply))
              == Positional(ShellParams(userInput)[0].1)
    ensures CallFor(ExtractParameters("write_file_tool", userInput, paramReply)).Keywords?
  {
    ExtractionShapes(userInput, paramReply);
  }

  /** Every other tool is called with the dict parsed from the model's reply: no arguments
      when it is empty, its one value when it has one key, keywords otherwise. */
  lemma ModelParsedCall(toolName: string, userInput: string, paramReply: string)
    requires toolName != "read_file_tool" && toolName != "write_file_tool"
    requires toolName != "list_directory_tool" && toolName != "run_shell_tool"
    ensures var d := ParamsFromReply(paramReply);
            && ExtractParameters(toolName, userInput, paramReply) == d
            && (CallFor(d) == NoArguments <==> d == [])
            && (|d| == 1 ==> CallFor(d) == Positional(d[0].1))
            && (|d| > 1 ==> CallFor(d) == Keywords(d))
  {
  }

  // ================================================================ the agent

  const DefaultTools: set<string> := {
    "read_file_tool", "write_file_tool", "list_directory_tool", "delete_file_tool",
    "run_shell_tool", "fetch_url_tool", "download_file_tool"
  }

  const DefaultPolicies: map<string, ToolPolicy> := map[
    "run_shell_tool" := RequireConfirmation,
    "delete_file_tool" := RequireConfirmation,
    "write_file_tool" := AutoExecute,
    "read_file_tool" := AutoExecute,
    "list_directory_tool" := AutoExecute,
    "fetch_url_tool" := AutoExecute,
    "download_file_tool" := RequireConfirmation
  ]

  /** The tables every new agent starts with: each of the seven tools has a policy, none is
      forbidden, and exactly the shell, delete and download tools need confirmation. */
  lemma DefaultTables()
    ensures DefaultPolicies.Keys == DefaultTools
    ensures forall t :: t in DefaultPolicies ==> DefaultPolicies[t] != Forbidden
    ensures forall t :: t in DefaultPolicies ==>
              (DefaultPolicies[t] == RequireConfirmation <==> t in {"run_shell_tool", "delete_file_tool", "download_file_tool"})
  {
  }

  /** The text reply for a turn with tool executions: the banner and the output of the last
      successful execution, or the apology when none succeeded. */
  function FinalReply(executions: seq<ToolExecution>): string {
    var ok := Successes(executions);
    if |ok| > 0 then "Task completed successfully!\n\n" + OutputText(ok[|ok| - 1].output)
    else IssuesReply
  }

  const IssuesReply := "I encountered some issues completing your request. Please try rephrasing or being more specific."

  /** `f"{output}"`: the text itself, or "None". */
  function OutputText(output: Option<string>): string {
    match output
    case Some(s) => s
    case None => "None"
  }

  /** `[e for e in executions if e.success]`. */
  function Successes(executions: seq<ToolExecution>): (r: seq<ToolExecution>)
    ensures forall i :: 0 <= i < |r| ==> r[i].success
    decreases |executions|
  {
    if |executions| == 0 then []
    else
      var earlier := Successes(executions[..|executions| - 1]);
      if executions[|executions| - 1].success then earlier + [executions[|executions| - 1]] else earlier
  }

  /** `[e for e in executions if not e.success]`. */
  function Failures(executions: seq<ToolExecution>): (r: seq<ToolExecution>)
    ensures |r| <= |executions|
    ensures forall i :: 0 <= i < |r| ==> !r[i].success
    decreases |executions|
  {
    if |executions| == 0 then []
    else
      var earlier := Failures(executions[..|executions| - 1]);
      if executions[|executions| - 1].success then earlier else earlier + [executions[|executions| - 1]]
  }

  lemma {:induction false} NoSuccesses(executions: seq<ToolExecution>)
    requires forall j :: 0 <= j < |executions| ==> !executions[j].success
    ensures Successes(executions) == []
    decreases |executions|
  {
    if |executions| > 0 {
      NoSuccesses(executions[..|executions| - 1]);
    }
  }

  /** The reply reports the output of the LAST successful execution. */
  lemma {:induction false} LastSuccess(executions: seq<ToolExecution>, i: nat)
    requires i < |executions| && executions[i].success
    requires forall j :: i < j < |executions| ==> !executions[j].success
    ensures |Successes(executions)| > 0
    ensures Successes(executions)[|Successes(executions)| - 1] == executions[i]
    decreases |executions|
  {
    var n := |executions|;
    var front := executions[..n - 1];
    if i < n - 1 {
      assert front[i] == executions[i];
      LastSuccess(front, i);
    }
  }

  lemma FinalReplyReportsLastSuccess(executions: seq<ToolExecution>, i: nat)
    requires i < |executions| && executions[i].success
    requires forall j :: i < j < |executions| ==> !executions[j].success
    ensures FinalReply(executions) == "Task completed successfully!\n\n" + OutputText(executions[i].output)
  {
    LastSuccess(executions, i);
  }

  /** With no successful execution the reply is the fixed apology. */
  lemma FinalReplyWithoutSuccess(executions: seq<ToolExecution>)
    requires forall j :: 0 <= j < |executions| ==> !executions[j].success
    ensures FinalReply(executions) == IssuesReply
  {
    NoSuccesses(executions);
  }

  /** Layer 5: reflection on one execution. */
  function Reflect(execution: ToolExecution, plan: Plan, stepIndex: nat): (r: Reflection)
    ensures !execution.success ==> r == Reflection(false, true, Some("Retry " + execution.toolName + " with different parameters"), true)
    ensures execution.success ==> r.nextStepAdjustment.None? && !r.additionalContextNeeded
    ensures execution.success ==> (r.outputMatchesExpectation <==> execution.output.Some? && !IsBlank(execution.output.value))
    ensures r.planStillValid <==> !execution.success || stepIndex < |plan.steps|
  {
    if !execution.success then
      Reflection(false, true, Some("Retry " + execution.toolName + " with different parameters"), true)
    else
      var outputValid := execution.output.Some? && Strip(execution.output.value) != "";
      StripEmptyIffBlankOf(execution.output);
      Reflection(outputValid, stepIndex < |plan.steps|, None, false)
  }

  /** Inside the loop the step index is below the number of steps, so the reflection never
      declares the plan invalid and the loop's `plan_still_valid` break cannot fire. */
  lemma PlanStaysValidInLoop(execution: ToolExecution, plan: Plan, stepIndex: nat)
    requires stepIndex < |plan.steps|
    ensures Reflect(execution, plan, stepIndex).planStillValid
  {
  }

  lemma StripEmptyIffBlankOf(output: Option<string>)
    ensures output.Some? ==> (Strip(output.value) == [] <==> IsBlank(output.value))
  {
    if output.Some? { StripEmptyIffBlank(output.value); }
  }

  /** Layer 6: stop when every step is done, when three executions have failed, or when
      ten have been made. */
  function ShouldTerminate(plan: Plan, executions: seq<ToolExecution>, stepIndex: nat): (r: bool)
    ensures r <==> stepIndex >= |plan.steps| || |Failures(executions)| >= 3 || |executions| >= 10
  {
    if stepIndex >= |plan.steps| then true
    else if |Failures(executions)| >= 3 then true
    else if |executions| >= 10 then true
    else false
  }

  /** The tool for step `i`: the plan's tool at that index, else its first tool. */
  function ToolForStep(plan: Plan, i: nat): string
    requires plan.toolsNeeded != []
  {
    if i < |plan.toolsNeeded| then plan.toolsNeeded[i] else plan.toolsNeeded[0]
  }

  /** The loop stopped at the first step whose termination check said so. */
  predicate StoppedWhenDue(plan: Plan, executions: seq<ToolExecution>) {
    && (forall j :: 0 <= j < |executions| ==> !ShouldTerminate(plan, executions[..j], j))
    && ShouldTerminate(plan, executions, |executions|)
  }

  /** A step taken because the check said to go on keeps the loop's record. */
  lemma NotDueExtend(plan: Plan, before: seq<ToolExecution>, e: ToolExecution)
    requires forall j :: 0 <= j < |before| ==> !ShouldTerminate(plan, before[..j], j)
    requires !ShouldTerminate(plan, before, |before|)
    ensures forall j :: 0 <= j < |before + [e]| ==> !ShouldTerminate(plan, (before + [e])[..j], j)
  {
    var after := before + [e];
    assert after[..|before|] == before;
    assert forall j :: 0 <= j < |before| ==> after[..j] == before[..j];
  }

  /** The safety bounds of the loop: no more executions than steps and no more than ten;
      no tool attempted once three have failed, so at most three failures in all. */
  lemma StoppedWhenDueBounds(plan: Plan, executions: seq<ToolExecution>)
    requires StoppedWhenDue(plan, executions)
    ensures |executions| <= |plan.steps| && |executions| <= 10
    ensures forall j :: 0 <= j < |executions| ==> |Failures(executions[..j])| < 3
    ensures |Failures(executions)| <= 3
  {
    var n := |executions|;
    if n > 0 {
      assert !ShouldTerminate(plan, executions[..n - 1], n - 1);
      assert executions[..n] == executions;
      assert executions[..n - 1] == executions[..|executions| - 1];
    }
  }

  class AdvancedKovAgent {
    /** The names in the `tools` dict. */
    const tools: set<string>
    /** The `tool_policies` dict. */
    const toolPolicies: map<string, ToolPolicy>

    constructor ()
      ensures tools == DefaultTools && toolPolicies == DefaultPolicies
    {
      tools := DefaultTools;
      toolPolicies := DefaultPolicies;
    }

    /** `tool_policies.get(name, AUTO_EXECUTE)`. */
    function PolicyFor(toolName: string): (p: ToolPolicy)
      ensures toolName !in toolPolicies ==> p == AutoExecute
      ensures toolName in toolPolicies ==> p == toolPolicies[toolName]
    {
      if toolName in toolPolicies then toolPolicies[toolName] else AutoExecute
    }

    /** The gate refuses this call, before extraction and before the tool. */
    predicate Refuses(toolName: string, answer: string) {
      toolName !in tools || PolicyFor(toolName) == Forbidden
      || (PolicyFor(toolName) == RequireConfirmation && Lower(answer) != "y")
    }

    /** Layers 3 and 4: what `select_and_execute_tool` records for one call, given the
        user's answer to the confirmation prompt, the model's parameter reply and the
        tool's behaviour. */
    function ToolResult(toolName: string, userInput: string, answer: string, paramReply: string,
                        invoke: (string, ToolCall) -> ToolOutcome): ToolExecution
    {
      if toolName !in tools then ToolExecution(toolName, [], None, false, Some("Tool not found"))
      else if PolicyFor(toolName) == Forbidden then ToolExecution(toolName, [], None, false, Some("Tool forbidden by policy"))
      else if PolicyFor(toolName) == RequireConfirmation && Lower(answer) != "y" then
        ToolExecution(toolName, [], None, false, Some("User cancelled"))
      else
        var parameters := ExtractParameters(toolName, userInput, paramReply);
        match invoke(toolName, CallFor(parameters))
        case Returned(out) => ToolExecution(toolName, parameters, Some(out), true, None)
        case Raised(message) => ToolExecution(toolName, parameters, None, false, Some(message))
    }

    /** The gate's checks in order: unknown tool, then forbidden, then a declined
        confirmation; each yields no parameters, no output and failure. */
    lemma GateOrder(toolName: string, userInput: string, answer: string, paramReply: string,
                    invoke: (string, ToolCall) -> ToolOutcome)
      ensures toolName !in tools ==>
                ToolResult(toolName, userInput, answer, paramReply, invoke) == ToolExecution(toolName, [], None, false, Some("Tool not found"))
      ensures toolName in tools && PolicyFor(toolName) == Forbidden ==>
                ToolResult(toolName, userInput, answer, paramReply, invoke) == ToolExecution(toolName, [], None, false, Some("Tool forbidden by policy"))
      ensures toolName in tools && PolicyFor(toolName) == RequireConfirmation && Lower(answer) != "y" ==>
                ToolResult(toolName, userInput, answer, paramReply, invoke) == ToolExecution(toolName, [], None, false, Some("User cancelled"))
    {
    }

    /** A refused call never reaches the tool or the model: its record is the same whatever
        the tool would do and whatever the model would reply. */
    lemma RefusalInvokesNothing(toolName: string, userInput: string, answer: string,
                                reply1: string, reply2: string,
                                invoke1: (string, ToolCall) -> ToolOutcome, invoke2: (string, ToolCall) -> ToolOutcome)
      requires Refuses(toolName, answer)
      ensures ToolResult(toolName, userInput, answer, reply1, invoke1) == ToolResult(toolName, userInput, answer, reply2, invoke2)
      ensures !ToolResult(toolName, userInput, answer, reply1, invoke1).success
    {
    }

    /** A call the gate lets through is made with the extracted parameters, and it succeeds
        exactly when the tool returns without raising; success always carries the output
        and no error. */
    lemma AdmittedCall(toolName: string, userInput: string, answer: string, paramReply: string,
                       invoke: (string, ToolCall) -> ToolOutcome)
      requires !Refuses(toolName, answer)
      ensures var e := ToolResult(toolName, userInput, answer, paramReply, invoke);
              var parameters := ExtractParameters(toolName, userInput, paramReply);
              && e.toolName == toolName
              && e.parameters == parameters
              && (e.success <==> invoke(toolName, CallFor(parameters)).Returned?)
              && (e.success ==> e.output == Some(invoke(toolName, CallFor(parameters)).output) && e.error.None?)
              && (!e.success ==> e.output.None? && e.error == Some(invoke(toolName, CallFor(parameters)).message))
    {
    }

    /** Layers 3 and 4: `select_and_execute_tool`. */
    method SelectAndExecuteTool(toolName: string, userInput: string, answer: string, paramReply: string,
                                invoke: (string, ToolCall) -> ToolOutcome)
      returns (execution: ToolExecution)
      ensures execution == ToolResult(toolName, userInput, answer, paramReply, invoke)
    {
      if toolName !in tools {
        return ToolExecution(toolName, [], None, false, Some("Tool not found"));
      }
      var policy := PolicyFor(toolName);
      if policy == Forbidden {
        return ToolExecution(toolName, [], None, false, Some("Tool forbidden by policy"));
      }
      if policy == RequireConfirmation && Lower(answer) != "y" {
        return ToolExecution(toolName, [], None, false, Some("User cancelled"));
      }
      var parameters: Params;
      if toolName == "read_file_tool" {
        parameters := ReadFileParams(userInput);
      } else if toolName == "write_file_tool" {
        parameters := WriteFileParams(userInput);
      } else if toolName == "list_directory_tool" {
        parameters := [("path", ".")];
      } else if toolName == "run_shell_tool" {
        parameters := ShellParams(userInput);
      } else {
        parameters := ParseParameterReply(paramReply);
      }
      match invoke(toolName, CallFor(parameters))
      case Returned(out) => execution := ToolExecution(toolName, parameters, Some(out), true, None);
      case Raised(message) => execution := ToolExecution(toolName, parameters, None, false, Some(message));
    }

    /** Execution `i` of the turn is the gate's record for the step's tool, with the answer,
        parameter reply and tool behaviour of step `i`. */
    predicate StepsExecuted(userInput: string, o: Oracles, plan: Plan, executions: seq<ToolExecution>) {
      plan.toolsNeeded != [] &&
      forall i :: 0 <= i < |executions| ==>
        executions[i] == ToolResult(ToolForStep(plan, i), userInput, o.confirmation(i), o.paramReply(i), o.invoke(i))
    }

    lemma StepsExecutedExtend(userInput: string, o: Oracles, plan: Plan, before: seq<ToolExecution>, e: ToolExecution)
      requires StepsExecuted(userInput, o, plan, before)
      requires e == ToolResult(ToolForStep(plan, |before|), userInput, o.confirmation(|before|), o.paramReply(|before|), o.invoke(|before|))
      ensures StepsExecuted(userInput, o, plan, before + [e])
    {
    }

    /** The loop's history is determined: two histories that both follow the steps and stop
        when due are the same. */
    lemma RunHistoryUnique(userInput: string, o: Oracles, plan: Plan, e1: seq<ToolExecution>, e2: seq<ToolExecution>)
      requires StepsExecuted(userInput, o, plan, e1) && StoppedWhenDue(plan, e1)
      requires StepsExecuted(userInput, o, plan, e2) && StoppedWhenDue(plan, e2)
      ensures e1 == e2
    {
      var m := if |e1| <= |e2| then |e1| else |e2|;
      assert e1[..m] == e2[..m];
      assert e1[..|e1|] == e1 && e2[..|e2|] == e2;
      assert ShouldTerminate(plan, e1[..m], m);
      assert !(m < |e1|) && !(m < |e2|);
    }

    /** The whole turn: classify, plan, answer directly for REASONING_ONLY or a plan
        without tools, otherwise run the step loop and report. The history of executions
        is returned beside the reply. */
    method Run(userInput: string, o: Oracles) returns (reply: string, executions: seq<ToolExecution>)
      ensures var intent := ClassifyIntent(userInput, o.intentReply, o.parseFloat);
              var plan := PlanFor(intent, o.planReply);
              if intent.kind == ReasoningOnly then reply == o.reasoningReply && executions == []
              else if plan.toolsNeeded == [] then reply == o.stepReply(plan.steps[0]) && executions == []
              else
                && StepsExecuted(userInput, o, plan, executions)
                && StoppedWhenDue(plan, executions)
                && reply == FinalReply(executions)
    {
      var intent := ClassifyIntent(userInput, o.intentReply, o.parseFloat);
      var plan := CreatePlan(userInput, intent, o.planReply);
      executions := [];
      if intent.kind == ReasoningOnly {
        reply := o.reasoningReply;
        return;
      }
      reply, executions := RunSteps(userInput, o, plan);
    }

    /** The step loop of a turn: until the termination check says stop, take the step's tool
        (or answer the first step directly when the plan needs no tools), run it and reflect
        on the result; then report. */
    method RunSteps(userInput: string, o: Oracles, plan: Plan) returns (reply: string, executions: seq<ToolExecution>)
      requires |plan.steps| >= 1
      ensures if plan.toolsNeeded == [] then reply == o.stepReply(plan.steps[0]) && executions == []
              else
                && StepsExecuted(userInput, o, plan, executions)
                && StoppedWhenDue(plan, executions)
                && reply == FinalReply(executions)
    {
      executions := [];
      var stepIndex := 0;
      while !ShouldTerminate(plan, executions, stepIndex)
        invariant stepIndex == |executions| <= |plan.steps|
        invariant plan.toolsNeeded == [] ==> executions == []
        invariant plan.toolsNeeded != [] ==> StepsExecuted(userInput, o, plan, executions)
        invariant forall j :: 0 <= j < |executions| ==> !ShouldTerminate(plan, executions[..j], j)
        decreases |plan.steps| - stepIndex
      {
        if stepIndex >= |plan.steps| {
          break;
        }
        var currentStep := plan.steps[stepIndex];
        var toolName: string;
        if plan.toolsNeeded != [] && stepIndex < |plan.toolsNeeded| {
          toolName := plan.toolsNeeded[stepIndex];
        } else if plan.toolsNeeded != [] {
          toolName := plan.toolsNeeded[0];
        } else {
          reply := o.stepReply(currentStep);
          return;
        }
        var execution := SelectAndExecuteTool(toolName, userInput, o.confirmation(stepIndex),
                                              o.paramReply(stepIndex), o.invoke(stepIndex));
        StepsExecutedExtend(userInput, o, plan, executions, execution);
        NotDueExtend(plan, executions, execution);
        executions := executions + [execution];
        var reflection := Reflect(execution, plan, stepIndex);
        assert reflection.planStillValid;
        if !reflection.planStillValid {
          break;
        }
        stepIndex := stepIndex + 1;
      }
      reply := FinalReply(executions);
    }
  }
}

/** The gate: whether one tool call runs, is denied, or asks the user. */
module Gate {
  import opened Events

  datatype Action = Allow | AskUser | Deny

  datatype Rule =
    | HubWrite | ConsolidationWrite | Notify | View
    | BashDeny(index: nat) | BashAsk(index: nat)
    | ToolOverride(name: string)
    | RoutineGrant | BashRead | AuthoredWrite | SeenUrl | UnseenUrl | AutoWorkspace
    | ModePreset(mode: Mode, write: bool)

  datatype Decision = Decision(action: Action, rule: Rule)

  datatype Tool = Tool(write: bool, hub: bool, consolidation: bool, notify: bool, view: bool, authored: bool)

  datatype Policy = Policy(tools: map<string, Action>, denylist: seq<string>, ask: seq<string>)

  /** What the gate asks of code outside it: whether a pattern is found in a command, whether a command only
      reads, and whether a call's paths are all inside the workspace. */
  datatype World = World(found: (string, string) -> bool, shellRead: string -> bool, inside: (string, Arguments) -> bool)

  function Preset(mode: Mode, write: bool): Action {
    match mode
    case ReadOnly => if write then Deny else Allow
    case FullAccess => Allow
    case _ => if write then AskUser else Allow
  }

  /** A tool with a rule of its own outside the modes, which read-only still denies. */
  function UnlessReadOnly(mode: Mode, action: Action, rule: Rule): Decision {
    Decision(if mode == ReadOnly then Deny else action, rule)
  }

  /** The first pattern found in the command. */
  function FirstFound(world: World, patterns: seq<string>, command: string): (found: Option<nat>)
    ensures found.Some? ==> found.value < |patterns| && world.found(patterns[found.value], command)
    ensures found.Some? ==> forall i :: 0 <= i < found.value ==> !world.found(patterns[i], command)
    ensures found.None? ==> forall i :: 0 <= i < |patterns| ==> !world.found(patterns[i], command)
  {
    if patterns == [] then None
    else
      var n := |patterns| - 1;
      var earlier := FirstFound(world, patterns[..n], command);
      if earlier.Some? then earlier
      else if world.found(patterns[n], command) then Some(n)
      else None
  }

  predicate UrlRead(name: string) {
    name == "web_fetch" || name == "browser_open"
  }

  function Evaluate(world: World, policy: Policy, mode: Mode, name: string, arguments: Arguments, tool: Option<Tool>,
                    granted: bool, markedReadOnly: bool, seenUrls: set<string>): Decision
  {
    if tool.Some? && tool.value.hub && tool.value.write then UnlessReadOnly(mode, AskUser, HubWrite)
    else if tool.Some? && tool.value.consolidation then UnlessReadOnly(mode, Allow, ConsolidationWrite)
    else if tool.Some? && tool.value.notify && name !in policy.tools then UnlessReadOnly(mode, Allow, Notify)
    else if tool.Some? && tool.value.view && name !in policy.tools then UnlessReadOnly(mode, Allow, View)
    else
      var bash := mode != ReadOnly && name == "bash" && arguments.command.Some?;
      var denied := if bash then FirstFound(world, policy.denylist, arguments.command.value) else None;
      var asked := if bash then FirstFound(world, policy.ask, arguments.command.value) else None;
      if denied.Some? then Decision(Deny, BashDeny(denied.value))
      else if asked.Some? then Decision(AskUser, BashAsk(asked.value))
      else if name in policy.tools then Decision(policy.tools[name], ToolOverride(name))
      else if granted && mode != ReadOnly then Decision(Allow, RoutineGrant)
      else if (mode == Ask || mode == Auto) && name == "bash" && tool.Some? && !tool.value.authored
              && arguments.command.Some? && world.shellRead(arguments.command.value) then Decision(Allow, BashRead)
      else if tool.Some? && tool.value.authored && !markedReadOnly then Decision(Preset(mode, true), AuthoredWrite)
      else if UrlRead(name) then
        if arguments.url.Some? && arguments.url.value in seenUrls then Decision(Allow, SeenUrl)
        else Decision(Preset(mode, true), UnseenUrl)
      else
        var writes := tool.Some? && tool.value.write && !tool.value.authored;
        if mode == Auto && writes && world.inside(name, arguments) then Decision(Allow, AutoWorkspace)
        else Decision(Preset(mode, writes), ModePreset(mode, writes))
  }

  /** A grant only ever allows, and never past the read-only mode. */
  lemma GrantOnlyAllows(world: World, policy: Policy, mode: Mode, name: string, arguments: Arguments, tool: Option<Tool>,
                        marked: bool, seen: set<string>)
    ensures var without := Evaluate(world, policy, mode, name, arguments, tool, false, marked, seen);
            var granted := Evaluate(world, policy, mode, name, arguments, tool, true, marked, seen);
            && (granted == without || (granted == Decision(Allow, RoutineGrant) && mode != ReadOnly))
            && (mode == ReadOnly ==> granted == without)
  {
  }

  /** A rule of the tool's own, which comes before the patterns, the policy's rules and the modes. */
  predicate RuledFirst(tool: Option<Tool>, name: string, policy: Policy) {
    tool.Some? && ((tool.value.hub && tool.value.write) || tool.value.consolidation
                   || ((tool.value.notify || tool.value.view) && name !in policy.tools))
  }

  /** A call that is no write: an authored tool's marked read-only, a URL already seen, or a tool not declared
      a write. */
  predicate IsRead(name: string, arguments: Arguments, tool: Option<Tool>, marked: bool, seen: set<string>) {
    if tool.Some? && tool.value.authored && !marked then false
    else if UrlRead(name) then arguments.url.Some? && arguments.url.value in seen
    else tool.None? || !tool.value.write || tool.value.authored
  }

  /** In read-only mode a call is decided by its tool's own rule, which denies it, or by a rule of the policy
      that names it; otherwise it never asks, and runs exactly when it is a read. An authored tool the user
      marked read-only is one, whatever it declares. */
  lemma ReadOnlyNeverAsks(world: World, policy: Policy, name: string, arguments: Arguments, tool: Option<Tool>,
                          granted: bool, marked: bool, seen: set<string>)
    ensures Evaluate(world, policy, ReadOnly, name, arguments, tool, granted, marked, seen).action
         == if RuledFirst(tool, name, policy) then Deny
            else if name in policy.tools then policy.tools[name]
            else if IsRead(name, arguments, tool, marked, seen) then Allow
            else Deny
  {
    hide FirstFound;
  }

  // ---------------------------------------------------------------- stricter modes

  function Severity(action: Action): nat {
    match action
    case Allow => 0
    case AskUser => 1
    case Deny => 2
  }

  function Strictness(mode: Mode): nat {
    match mode
    case ReadOnly => 3
    case Ask => 2
    case Auto => 1
    case FullAccess => 0
  }

  /** What the patterns of the policy say of a bash command, where they are looked for. */
  function PatternAction(world: World, policy: Policy, name: string, arguments: Arguments): Option<Action> {
    if name != "bash" || arguments.command.None? then None
    else if FirstFound(world, policy.denylist, arguments.command.value).Some? then Some(Deny)
    else if FirstFound(world, policy.ask, arguments.command.value).Some? then Some(AskUser)
    else None
  }

  /** The patterns would stop a call that read-only mode, which does not look for them, lets through. */
  predicate SlipsPastPatterns(world: World, policy: Policy, name: string, arguments: Arguments, tool: Option<Tool>, marked: bool) {
    var pattern := PatternAction(world, policy, name, arguments);
    var unlooked := if name in policy.tools then policy.tools[name] else if IsRead(name, arguments, tool, marked, {}) then Allow else Deny;
    !RuledFirst(tool, name, policy) && pattern.Some? && Severity(pattern.value) > Severity(unlooked)
  }

  lemma BashIsNoUrlRead()
    ensures !UrlRead("bash")
  {
    assert |"bash"| == 4 && |"web_fetch"| == 9 && |"browser_open"| == 12;
  }

  /** A stricter mode decides no more leniently than a lenient one, except exactly where read-only mode lets a
      bash command through that a pattern of the policy would stop in the other. */
  lemma StricterModeIsStricter(world: World, policy: Policy, strict: Mode, lenient: Mode, name: string, arguments: Arguments,
                               tool: Option<Tool>, granted: bool, marked: bool, seen: set<string>)
    requires Strictness(strict) >= Strictness(lenient)
    ensures Severity(Evaluate(world, policy, lenient, name, arguments, tool, granted, marked, seen).action)
         <= Severity(Evaluate(world, policy, strict, name, arguments, tool, granted, marked, seen).action)
       <==> !(strict == ReadOnly && lenient != ReadOnly && SlipsPastPatterns(world, policy, name, arguments, tool, marked))
  {
    BashIsNoUrlRead();
    hide FirstFound, UrlRead;
  }

  /** A command the policy denies in every mode but read-only, where the policy's rule for bash lets it run. */
  lemma ReadOnlyRunsADeniedCommand(granted: bool, marked: bool, seen: set<string>)
    ensures var world := World((p, c) => p == c, c => false, (n, x) => false);
            var policy := Policy.Policy(map["bash" := Allow], ["git reset --hard"], []);
            var command := Arguments(None, Some("git reset --hard"), None, None);
            var bash := Some(Tool(true, false, false, false, false, false));
            && Evaluate(world, policy, ReadOnly, "bash", command, bash, granted, marked, seen) == Decision(Allow, ToolOverride("bash"))
            && forall mode :: mode != ReadOnly ==>
                 Evaluate(world, policy, mode, "bash", command, bash, granted, marked, seen) == Decision(Deny, BashDeny(0))
  {
    var world := World((p, c) => p == c, c => false, (n, x) => false);
    assert FirstFound(world, ["git reset --hard"], "git reset --hard") == Some(0);
  }

  // ---------------------------------------------------------------- the other modes

  /** A shell command that only reads, given to the shipped bash tool. */
  predicate IsShellRead(world: World, name: string, arguments: Arguments, tool: Option<Tool>) {
    name == "bash" && tool.Some? && !tool.value.authored && arguments.command.Some? && world.shellRead(arguments.command.value)
  }

  /** A write that a tool which is not authored declares, with all its paths inside the workspace. */
  predicate WritesInside(world: World, name: string, arguments: Arguments, tool: Option<Tool>) {
    && name != "web_fetch" && name != "browser_open"
    && tool.Some? && tool.value.write && !tool.value.authored && world.inside(name, arguments)
  }

  /** In the other modes the tool's own rule comes first, then the policy's patterns for bash, its rule that names
      the tool, and a routine's grant. Of what is left a read runs, in every mode; and a write runs in full
      access, in auto when it stays inside the workspace, and in ask and auto when it is a shell read; or else
      it asks. */
  lemma OtherModesDecide(world: World, policy: Policy, mode: Mode, name: string, arguments: Arguments, tool: Option<Tool>,
                         granted: bool, marked: bool, seen: set<string>)
    requires mode != ReadOnly
    ensures Evaluate(world, policy, mode, name, arguments, tool, granted, marked, seen).action
         == if RuledFirst(tool, name, policy) then (if tool.value.hub && tool.value.write then AskUser else Allow)
            else if PatternAction(world, policy, name, arguments).Some? then PatternAction(world, policy, name, arguments).value
            else if name in policy.tools then policy.tools[name]
            else if granted || IsRead(name, arguments, tool, marked, seen) || mode == FullAccess
                    || IsShellRead(world, name, arguments, tool) || (mode == Auto && WritesInside(world, name, arguments, tool))
                 then Allow
            else AskUser
  {
    BashIsNoUrlRead();
    hide FirstFound;
  }

  /** The rule a decision names is the one it was decided by: a pattern's place is the first that is found, a
      policy's rule and a grant are the call's own, a URL's rule says whether it was seen, and a preset's says
      the mode and whether the call writes. */
  lemma RuleSaysWhy(world: World, policy: Policy, mode: Mode, name: string, arguments: Arguments, tool: Option<Tool>,
                    granted: bool, marked: bool, seen: set<string>)
    ensures var d := Evaluate(world, policy, mode, name, arguments, tool, granted, marked, seen);
            match d.rule
            case HubWrite => tool.Some? && tool.value.hub && tool.value.write
            case ConsolidationWrite => tool.Some? && tool.value.consolidation
            case Notify => tool.Some? && tool.value.notify && name !in policy.tools
            case View => tool.Some? && tool.value.view && name !in policy.tools
            case BashDeny(i) => d.action == Deny && name == "bash" && arguments.command.Some? && IsFirstFound(world, policy.denylist, arguments.command.value, i)
            case BashAsk(i) => d.action == AskUser && name == "bash" && arguments.command.Some? && IsFirstFound(world, policy.ask, arguments.command.value, i)
            case ToolOverride(named) => named == name && name in policy.tools && d.action == policy.tools[name]
            case RoutineGrant => granted && d.action == Allow && mode != ReadOnly
            case BashRead => IsShellRead(world, name, arguments, tool) && d.action == Allow
            case AuthoredWrite => tool.Some? && tool.value.authored && !marked
            case SeenUrl => d.action == Allow && UrlRead(name) && arguments.url.Some? && arguments.url.value in seen
            case UnseenUrl => UrlRead(name) && !(arguments.url.Some? && arguments.url.value in seen)
            case AutoWorkspace => d.action == Allow && mode == Auto && WritesInside(world, name, arguments, tool)
            case ModePreset(m, writes) =>
              && m == mode && (writes <==> tool.Some? && tool.value.write && !tool.value.authored)
              && !(tool.Some? && tool.value.authored && !marked) && !UrlRead(name)
  {
    hide FirstFound;
  }

  predicate IsFirstFound(world: World, patterns: seq<string>, command: string, i: nat) {
    i < |patterns| && world.found(patterns[i], command) && forall j :: 0 <= j < i ==> !world.found(patterns[j], command)
  }

  /** The tools that open a URL. */
  lemma UrlReadsAre(name: string)
    ensures UrlRead(name) <==> name in {"web_fetch", "browser_open"}
  {
  }
}

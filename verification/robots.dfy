/**
 * `parse_robots_txt`: a line parser for robots.txt files. Unlike the grouping
 * of the Robots Exclusion Protocol (section 2.1 of RFC 9309), each
 * `User-agent` line starts a new current agent, and allow and disallow rules
 * go to the most recent one.
 */
module Robots {
  import opened PyBase
  import opened Text

  // ---------------------------------------------------------------------------
  // Lines

  /** The field names the parser acts on; any other name is read and ignored. */
  datatype Directive = UserAgent | Disallow | Allow | Sitemap | CrawlDelay | Unknown

  /** The lower-case name a directive is written with. */
  function DirectiveName(d: Directive): string
  {
    match d
    case UserAgent => "user-agent"
    case Disallow => "disallow"
    case Allow => "allow"
    case Sitemap => "sitemap"
    case CrawlDelay => "crawl-delay"
    case Unknown => ""
  }

  /** The directive a lower-cased, stripped field name stands for. */
  function DirectiveOf(key: string): (d: Directive)
    ensures d != Unknown ==> DirectiveName(d) == key
  {
    if key == "user-agent" then UserAgent
    else if key == "disallow" then Disallow
    else if key == "allow" then Allow
    else if key == "sitemap" then Sitemap
    else if key == "crawl-delay" then CrawlDelay
    else Unknown
  }

  /** Each directive is recognised by its own name. */
  lemma DirectiveNameRoundTrip(d: Directive)
    requires d != Unknown
    ensures DirectiveOf(DirectiveName(d)) == d
  {
  }

  /** What one line of the file says once stripped and split at its first `:`. */
  datatype Line =
    | Skip                                     // blank, a `#` comment, or without `:`
    | Field(directive: Directive, value: string)  // the value stripped

  /**
   * The lower-cased, stripped name and the stripped value of a line, split at
   * its first `:`; nothing for a blank line, a comment, or a line without `:`.
   */
  function SplitField(raw: string): (r: Option<(string, string)>)
    ensures var line := Strip(raw); r.None? <==> line == [] || line[0] == '#' || ':' !in line
  {
    var line := Strip(raw);
    if line == [] || line[0] == '#' then None
    else
      match IndexOf(line, ':')
      case None => None
      case Some(i) => Some((Lower(Strip(line[..i])), Strip(line[i + 1..])))
  }

  /** The reading of one line. */
  function ClassifyLine(raw: string): (l: Line)
    ensures l.Skip? <==> SplitField(raw).None?
  {
    match SplitField(raw)
    case None => Skip
    case Some(f) => Field(DirectiveOf(f.0), f.1)
  }

  function ClassifyAll(raw: seq<string>): (ls: seq<Line>)
    ensures |ls| == |raw|
    ensures forall i :: 0 <= i < |raw| ==> ls[i] == ClassifyLine(raw[i])
  {
    if raw == [] then [] else [ClassifyLine(raw[0])] + ClassifyAll(raw[1..])
  }

  /** A field name as it may stand before the first `:` of a line that is not a comment. */
  predicate PlainName(k: string)
  {
    k != [] && k[0] != '#' && !IsSpace(k[0]) && !IsSpace(k[|k| - 1]) && ':' !in k
  }

  /**
   * Field names are matched without regard to case: two spellings of a name
   * that lower-case alike read the same line the same way.
   */
  lemma KeyCaseInsensitive(k1: string, k2: string, v: string)
    requires PlainName(k1) && PlainName(k2) && Lower(k1) == Lower(k2)
    requires v == [] || !IsSpace(v[|v| - 1])
    ensures ClassifyLine(k1 + ":" + v) == ClassifyLine(k2 + ":" + v)
    ensures SplitField(k1 + ":" + v) == Some((Lower(k1), Strip(v)))
  {
    FieldLine(k1, v);
    FieldLine(k2, v);
  }

  /** A line `name:value` splits into the lower-cased name and the stripped value. */
  lemma FieldLine(k: string, v: string)
    requires PlainName(k)
    requires v == [] || !IsSpace(v[|v| - 1])
    ensures SplitField(k + ":" + v) == Some((Lower(k), Strip(v)))
  {
    var line := k + ":" + v;
    FieldLineShape(k, v);
    StripUnchanged(k);
    assert SplitField(line) == Some((Lower(Strip(line[..|k|])), Strip(line[|k| + 1..])));
  }

  /** The unstripped line `name:value` is already stripped and has its first `:` after the name. */
  lemma FieldLineShape(k: string, v: string)
    requires PlainName(k)
    requires v == [] || !IsSpace(v[|v| - 1])
    ensures var line := k + ":" + v;
      Strip(line) == line && IndexOf(line, ':') == Some(|k|)
      && line[..|k|] == k && line[|k| + 1..] == v
  {
    var line := k + ":" + v;
    assert line[0] == k[0];
    assert line[|line| - 1] == if v == [] then ':' else v[|v| - 1];
    StripUnchanged(line);
    assert line[..|k|] == k && line[|k|] == ':';
    IndexOfAt(line, ':', |k|);
    assert line[|k| + 1..] == v;
  }

  // ---------------------------------------------------------------------------
  // The result

  datatype RuleKind = DisallowRule | AllowRule

  /** The directive a rule kind is written with. */
  function RuleDirective(kind: RuleKind): Directive
  {
    match kind
    case DisallowRule => Disallow
    case AllowRule => Allow
  }

  datatype AgentRules = AgentRules(disallow: seq<string>, allow: seq<string>)

  const NoRules := AgentRules([], [])

  /** `rules['user_agents']`: an insertion-ordered dictionary from agent name to its rules. */
  type AgentTable = seq<(string, AgentRules)>

  /** The whole result; the crawl delay is the value Python's `float` made of the text. */
  datatype RobotsRules = RobotsRules(userAgents: AgentTable, sitemaps: seq<string>, crawlDelay: Option<real>)

  predicate UniqueNames(t: AgentTable)
  {
    forall i, j :: 0 <= i < j < |t| ==> t[i].0 != t[j].0
  }

  function Lookup(t: AgentTable, a: string): (r: Option<AgentRules>)
    ensures r.None? <==> a !in Firsts(t)
  {
    if t == [] then None else if t[0].0 == a then Some(t[0].1) else Lookup(t[1..], a)
  }

  function RulesOr(r: Option<AgentRules>): AgentRules
  {
    if r.Some? then r.value else NoRules
  }

  function AddRule(r: AgentRules, kind: RuleKind, v: string): AgentRules
  {
    match kind
    case DisallowRule => r.(disallow := r.disallow + [v])
    case AllowRule => r.(allow := r.allow + [v])
  }

  /** The rules of one kind. */
  function RulesOf(r: AgentRules, kind: RuleKind): seq<string>
  {
    match kind
    case DisallowRule => r.disallow
    case AllowRule => r.allow
  }

  /** `rules['user_agents'][a][kind].append(v)`. */
  function AppendRule(t: AgentTable, a: string, kind: RuleKind, v: string): (r: AgentTable)
    ensures Firsts(r) == Firsts(t)
    ensures forall b :: b != a ==> Lookup(r, b) == Lookup(t, b)
    ensures Lookup(t, a).Some? ==> Lookup(r, a) == Some(AddRule(Lookup(t, a).value, kind, v))
  {
    if t == [] then []
    else
      var head := if t[0].0 == a then (a, AddRule(t[0].1, kind, v)) else t[0];
      var r := [head] + AppendRule(t[1..], a, kind, v);
      assert r[1..] == AppendRule(t[1..], a, kind, v);
      r
  }

  /** Registers `a` with empty lists unless it is there already. */
  function AddAgent(t: AgentTable, a: string): (r: AgentTable)
    ensures a in Firsts(t) ==> r == t
    ensures a !in Firsts(t) ==> r == t + [(a, NoRules)]
  {
    if a in Firsts(t) then t else t + [(a, NoRules)]
  }

  lemma {:induction false} LookupAppend(t: AgentTable, a: string, b: string)
    requires a !in Firsts(t)
    ensures Lookup(t + [(a, NoRules)], b) == if b == a then Some(NoRules) else Lookup(t, b)
  {
    if t != [] {
      assert (t + [(a, NoRules)])[1..] == t[1..] + [(a, NoRules)];
      assert Firsts(t) == [t[0].0] + Firsts(t[1..]);
      LookupAppend(t[1..], a, b);
    }
  }

  lemma {:induction false} NamesAppend(t: AgentTable, a: string)
    ensures Firsts(t + [(a, NoRules)]) == Firsts(t) + [a]
  {
  }

  // ---------------------------------------------------------------------------
  // The parser

  /** The rules so far and `current_user_agent`. */
  datatype ParseState = ParseState(rules: RobotsRules, current: Option<string>)

  const Initial := ParseState(RobotsRules([], [], None), None)

  /** The agent rules go to: the current one, when it is a non-empty (truthy) name. */
  predicate HasTarget(st: ParseState)
  {
    st.current.Some? && st.current.value != ""
  }

  /** The loop body for one line; `parseFloat` is Python's `float` on a string, `None` where it raises. */
  function Step(st: ParseState, line: Line, parseFloat: string -> Option<real>): ParseState
  {
    match line
    case Skip => st
    case Field(directive, value) =>
      match directive
      case UserAgent =>
        ParseState(st.rules.(userAgents := AddAgent(st.rules.userAgents, value)), Some(value))
      case Disallow =>
        if HasTarget(st) then
          st.(rules := st.rules.(userAgents := AppendRule(st.rules.userAgents, st.current.value, DisallowRule, value)))
        else st
      case Allow =>
        if HasTarget(st) then
          st.(rules := st.rules.(userAgents := AppendRule(st.rules.userAgents, st.current.value, AllowRule, value)))
        else st
      case Sitemap => st.(rules := st.rules.(sitemaps := st.rules.sitemaps + [value]))
      case CrawlDelay =>
        (match parseFloat(value)
         case Some(d) => st.(rules := st.rules.(crawlDelay := Some(d)))
         case None => st)
      case Unknown => st
  }

  function Run(lines: seq<Line>, st: ParseState, parseFloat: string -> Option<real>): ParseState
    decreases |lines|
  {
    if lines == [] then st else Run(lines[1..], Step(st, lines[0], parseFloat), parseFloat)
  }

  /** The loop of `parse_robots_txt` over the lines, read. */
  function ParseLines(lines: seq<Line>, parseFloat: string -> Option<real>): (r: RobotsRules)
    ensures UniqueNames(r.userAgents)
    ensures r.sitemaps == SitemapValues(lines)
  {
    RunKeepsInvariant(lines, Initial, parseFloat);
    SitemapsCollected(lines, Initial, parseFloat);
    Run(lines, Initial, parseFloat).rules
  }

  /** `parse_robots_txt(robots_content)`: the file split at `\n`, each line read, then the loop. */
  function ParseRobotsTxt(content: string, parseFloat: string -> Option<real>): (r: RobotsRules)
    ensures UniqueNames(r.userAgents)
  {
    ParseLines(ClassifyAll(SplitOn(content, '\n')), parseFloat)
  }

  // ---------------------------------------------------------------------------
  // Invariant: agent names are unique and the current agent is registered

  predicate Inv(st: ParseState)
  {
    && UniqueNames(st.rules.userAgents)
    && (st.current.Some? ==> st.current.value in Firsts(st.rules.userAgents))
  }

  lemma StepKeepsInvariant(st: ParseState, line: Line, parseFloat: string -> Option<real>)
    requires Inv(st)
    ensures Inv(Step(st, line, parseFloat))
  {
    if line.Field? && line.directive == UserAgent && line.value !in Firsts(st.rules.userAgents) {
      NamesAppend(st.rules.userAgents, line.value);
    }
  }

  lemma {:induction false} RunKeepsInvariant(lines: seq<Line>, st: ParseState, parseFloat: string -> Option<real>)
    requires Inv(st)
    ensures Inv(Run(lines, st, parseFloat))
    decreases |lines|
  {
    if lines != [] {
      StepKeepsInvariant(st, lines[0], parseFloat);
      RunKeepsInvariant(lines[1..], Step(st, lines[0], parseFloat), parseFloat);
    }
  }

  // ---------------------------------------------------------------------------
  // Independent readings of the file

  /** The values of the `Sitemap` lines, in order. */
  function SitemapValues(lines: seq<Line>): seq<string>
  {
    if lines == [] then []
    else (if lines[0].Field? && lines[0].directive == Sitemap then [lines[0].value] else []) + SitemapValues(lines[1..])
  }

  /** The values of the `User-agent` lines, in order. */
  function AgentValues(lines: seq<Line>): seq<string>
  {
    if lines == [] then []
    else (if lines[0].Field? && lines[0].directive == UserAgent then [lines[0].value] else []) + AgentValues(lines[1..])
  }

  /**
   * The rules of one kind for agent `a`: the values of the lines of that kind
   * that come while the latest `User-agent` line named `a` (a non-empty name),
   * starting with `cur` as the agent named before the lines.
   */
  function Collected(lines: seq<Line>, cur: Option<string>, a: string, kind: RuleKind): seq<string>
  {
    if lines == [] then []
    else if IsAgentLine(lines[0]) then Collected(lines[1..], Some(lines[0].value), a, kind)
    else Contribution(lines[0], cur, a, kind) + Collected(lines[1..], cur, a, kind)
  }

  predicate IsAgentLine(line: Line)
  {
    line.Field? && line.directive == UserAgent
  }

  /** The rule of one kind a line gives agent `a` while `cur` is the current agent. */
  function Contribution(line: Line, cur: Option<string>, a: string, kind: RuleKind): seq<string>
  {
    if line.Field? && line.directive == RuleDirective(kind) && cur == Some(a) && a != "" then [line.value] else []
  }

  /** The value of the last `Crawl-delay` line that `float` accepts, if any. */
  function LastDelay(lines: seq<Line>, parseFloat: string -> Option<real>): Option<real>
  {
    if lines == [] then None
    else
      var l := lines[|lines| - 1];
      if l.Field? && l.directive == CrawlDelay && parseFloat(l.value).Some? then parseFloat(l.value)
      else LastDelay(lines[..|lines| - 1], parseFloat)
  }

  // ---------------------------------------------------------------------------
  // Properties

  /** Sitemaps are collected in order, whatever agent is current. */
  lemma {:induction false} SitemapsCollected(lines: seq<Line>, st: ParseState, parseFloat: string -> Option<real>)
    ensures Run(lines, st, parseFloat).rules.sitemaps == st.rules.sitemaps + SitemapValues(lines)
    decreases |lines|
  {
    if lines != [] {
      SitemapsCollected(lines[1..], Step(st, lines[0], parseFloat), parseFloat);
    }
  }

  /** The agents are the distinct `User-agent` values, in order of first appearance. */
  lemma {:induction false} AgentsRegistered(lines: seq<Line>, st: ParseState, parseFloat: string -> Option<real>)
    requires UniqueNames(st.rules.userAgents)
    ensures Firsts(Run(lines, st, parseFloat).rules.userAgents) == DedupFrom(AgentValues(lines), Firsts(st.rules.userAgents))
    decreases |lines|
  {
    if lines != [] {
      var line := lines[0];
      var st' := Step(st, line, parseFloat);
      StepAgentNames(st, line, parseFloat);
      AgentsRegistered(lines[1..], st', parseFloat);
      var rest := AgentValues(lines[1..]);
      if IsAgentLine(line) {
        assert AgentValues(lines) == [line.value] + rest;
        assert ([line.value] + rest)[1..] == rest;
      } else {
        assert AgentValues(lines) == rest;
      }
    }
  }

  /** One line registers its agent when it names a new one, and changes no other name. */
  lemma StepAgentNames(st: ParseState, line: Line, parseFloat: string -> Option<real>)
    requires UniqueNames(st.rules.userAgents)
    ensures var ns := Firsts(st.rules.userAgents);
      Firsts(Step(st, line, parseFloat).rules.userAgents) ==
        if IsAgentLine(line) && line.value !in ns then ns + [line.value] else ns
    ensures UniqueNames(Step(st, line, parseFloat).rules.userAgents)
  {
    if IsAgentLine(line) && line.value !in Firsts(st.rules.userAgents) {
      NamesAppend(st.rules.userAgents, line.value);
    }
  }

  /** A `User-agent` line registers its agent and leaves every agent's lists as they were. */
  lemma StepAgentLine(st: ParseState, line: Line, a: string, parseFloat: string -> Option<real>)
    requires Inv(st) && IsAgentLine(line)
    ensures var base := Lookup(st.rules.userAgents, a);
      Lookup(Step(st, line, parseFloat).rules.userAgents, a) ==
        if base.None? && a != line.value then None else Some(RulesOr(base))
  {
    var t := st.rules.userAgents;
    if line.value !in Firsts(t) {
      LookupAppend(t, line.value, a);
    }
  }

  /** Any other line adds at most its own rule, to the current agent's list of its kind. */
  lemma StepOtherLine(st: ParseState, line: Line, a: string, parseFloat: string -> Option<real>)
    requires Inv(st) && !IsAgentLine(line)
    ensures Step(st, line, parseFloat).current == st.current
    ensures var base := Lookup(st.rules.userAgents, a);
      Lookup(Step(st, line, parseFloat).rules.userAgents, a) ==
        if base.None? then None
        else Some(AgentRules(
          base.value.disallow + Contribution(line, st.current, a, DisallowRule),
          base.value.allow + Contribution(line, st.current, a, AllowRule)))
  {
    var t := st.rules.userAgents;
    if line.Field? && line.directive == Disallow && HasTarget(st) {
      assert Step(st, line, parseFloat).rules.userAgents == AppendRule(t, st.current.value, DisallowRule, line.value);
      AppendRuleLookup(t, st.current.value, DisallowRule, line.value, a);
    } else if line.Field? && line.directive == Allow && HasTarget(st) {
      assert Step(st, line, parseFloat).rules.userAgents == AppendRule(t, st.current.value, AllowRule, line.value);
      AppendRuleLookup(t, st.current.value, AllowRule, line.value, a);
    } else {
      assert Step(st, line, parseFloat).rules.userAgents == t;
      assert Contribution(line, st.current, a, DisallowRule) == [];
      assert Contribution(line, st.current, a, AllowRule) == [];
      NoRulesAdded(Lookup(t, a));
    }
  }

  /** Appending a rule for the registered agent `cur` extends its list of that kind and no other. */
  lemma AppendRuleLookup(t: AgentTable, cur: string, kind: RuleKind, v: string, a: string)
    requires cur in Firsts(t)
    ensures var base := Lookup(t, a);
      Lookup(AppendRule(t, cur, kind, v), a) ==
        if base.None? then None
        else Some(AgentRules(
          base.value.disallow + (if a == cur && kind == DisallowRule then [v] else []),
          base.value.allow + (if a == cur && kind == AllowRule then [v] else [])))
  {
    var base := Lookup(t, a);
    if a != cur {
      NoRulesAdded(base);
    } else if kind == DisallowRule {
      assert base.value.allow + [] == base.value.allow;
    } else {
      assert base.value.disallow + [] == base.value.disallow;
    }
  }

  lemma NoRulesAdded(base: Option<AgentRules>)
    ensures base == if base.None? then None else Some(AgentRules(base.value.disallow + [], base.value.allow + []))
  {
    if base.Some? {
      assert base.value.disallow + [] == base.value.disallow && base.value.allow + [] == base.value.allow;
    }
  }

  /**
   * `found` is what the table holds for `a` after `lines`, given the state
   * before them: nothing for an agent neither known before nor named in the
   * lines, otherwise its lists from before followed by the rules collected.
   */
  ghost predicate Explains(lines: seq<Line>, st: ParseState, a: string, found: Option<AgentRules>)
  {
    var base := Lookup(st.rules.userAgents, a);
    found ==
      if base.None? && a !in AgentValues(lines) then None
      else Some(AgentRules(
        RulesOr(base).disallow + Collected(lines, st.current, a, DisallowRule),
        RulesOr(base).allow + Collected(lines, st.current, a, AllowRule)))
  }

  lemma CollectAgentLine(lines: seq<Line>, st: ParseState, a: string, found: Option<AgentRules>, parseFloat: string -> Option<real>)
    requires Inv(st) && lines != [] && IsAgentLine(lines[0])
    requires Explains(lines[1..], Step(st, lines[0], parseFloat), a, found)
    ensures Explains(lines, st, a, found)
  {
    StepAgentLine(st, lines[0], a, parseFloat);
    assert AgentValues(lines) == [lines[0].value] + AgentValues(lines[1..]);
  }

  /** Moving one line's rules from the table to the collected lists leaves the explanation unchanged. */
  lemma ExplainsShift(base: Option<AgentRules>, d: seq<string>, w: seq<string>, cd: seq<string>, cw: seq<string>,
                      named: bool, found: Option<AgentRules>)
    requires base.None? ==> d == [] && w == []
    requires var base' := if base.None? then None else Some(AgentRules(base.value.disallow + d, base.value.allow + w));
      found == if base'.None? && !named then None
               else Some(AgentRules(RulesOr(base').disallow + cd, RulesOr(base').allow + cw))
    ensures found == if base.None? && !named then None
                     else Some(AgentRules(RulesOr(base).disallow + (d + cd), RulesOr(base).allow + (w + cw)))
  {
    if base.None? {
      assert d + cd == cd && w + cw == cw;
    } else {
      assert base.value.disallow + d + cd == base.value.disallow + (d + cd);
      assert base.value.allow + w + cw == base.value.allow + (w + cw);
    }
  }

  lemma CollectOtherLine(lines: seq<Line>, st: ParseState, a: string, found: Option<AgentRules>, parseFloat: string -> Option<real>)
    requires Inv(st) && lines != [] && !IsAgentLine(lines[0])
    requires Explains(lines[1..], Step(st, lines[0], parseFloat), a, found)
    ensures Explains(lines, st, a, found)
  {
    var line := lines[0];
    StepOtherLine(st, line, a, parseFloat);
    var d := Contribution(line, st.current, a, DisallowRule);
    var w := Contribution(line, st.current, a, AllowRule);
    assert AgentValues(lines) == AgentValues(lines[1..]);
    assert Collected(lines, st.current, a, DisallowRule) == d + Collected(lines[1..], st.current, a, DisallowRule);
    assert Collected(lines, st.current, a, AllowRule) == w + Collected(lines[1..], st.current, a, AllowRule);
    assert Lookup(st.rules.userAgents, a).None? ==> d == [] && w == [];
    ExplainsShift(Lookup(st.rules.userAgents, a), d, w,
                  Collected(lines[1..], st.current, a, DisallowRule), Collected(lines[1..], st.current, a, AllowRule),
                  a in AgentValues(lines[1..]), found);
  }

  /**
   * Every agent's lists are exactly its rules from before and the rules that
   * follow its `User-agent` lines, in order; an agent named again keeps its
   * lists, and an agent never named has none.
   */
  lemma {:induction false} AgentRulesCollected(lines: seq<Line>, st: ParseState, a: string, parseFloat: string -> Option<real>)
    requires Inv(st)
    ensures Explains(lines, st, a, Lookup(Run(lines, st, parseFloat).rules.userAgents, a))
    decreases |lines|
  {
    var found := Lookup(Run(lines, st, parseFloat).rules.userAgents, a);
    if lines == [] {
      var base := Lookup(st.rules.userAgents, a);
      assert Run(lines, st, parseFloat) == st && AgentValues(lines) == [];
      assert Collected(lines, st.current, a, DisallowRule) == [];
      assert Collected(lines, st.current, a, AllowRule) == [];
      assert base.Some? ==> base.value.disallow + [] == base.value.disallow && base.value.allow + [] == base.value.allow;
    } else {
      var st' := Step(st, lines[0], parseFloat);
      StepKeepsInvariant(st, lines[0], parseFloat);
      AgentRulesCollected(lines[1..], st', a, parseFloat);
      assert Run(lines, st, parseFloat) == Run(lines[1..], st', parseFloat);
      if IsAgentLine(lines[0]) {
        CollectAgentLine(lines, st, a, found, parseFloat);
      } else {
        CollectOtherLine(lines, st, a, found, parseFloat);
      }
    }
  }

  /** Rules before any `User-agent` line are dropped: without one, no agent is recorded. */
  lemma NoAgentNoRules(lines: seq<Line>, parseFloat: string -> Option<real>)
    requires AgentValues(lines) == []
    ensures ParseLines(lines, parseFloat).userAgents == []
  {
    AgentsRegistered(lines, Initial, parseFloat);
    assert ParseLines(lines, parseFloat) == Run(lines, Initial, parseFloat).rules;
    assert Firsts(Initial.rules.userAgents) == [];
    assert DedupFrom(AgentValues(lines), []) == [];
    assert |Firsts(ParseLines(lines, parseFloat).userAgents)| == 0;
  }

  /** The agents of the parsed file, read from the lines alone. */
  lemma ParsedAgents(lines: seq<Line>, parseFloat: string -> Option<real>)
    ensures Firsts(ParseLines(lines, parseFloat).userAgents) == Dedup(AgentValues(lines))
  {
    AgentsRegistered(lines, Initial, parseFloat);
    assert Initial.rules.userAgents == [];
    assert Firsts(Initial.rules.userAgents) == [];
    assert Dedup(AgentValues(lines)) == DedupFrom(AgentValues(lines), []);
    assert ParseLines(lines, parseFloat) == Run(lines, Initial, parseFloat).rules;
  }

  /** The rules of an agent in the parsed file, read from the lines alone. */
  lemma ParsedAgentRules(lines: seq<Line>, a: string, parseFloat: string -> Option<real>)
    ensures Lookup(ParseLines(lines, parseFloat).userAgents, a) ==
      if a in AgentValues(lines) then
        Some(AgentRules(Collected(lines, None, a, DisallowRule), Collected(lines, None, a, AllowRule)))
      else None
  {
    AgentRulesCollected(lines, Initial, a, parseFloat);
    assert Explains(lines, Initial, a, Lookup(ParseLines(lines, parseFloat).userAgents, a));
    assert Initial.rules.userAgents == [] && Initial.current == None;
    assert NoRules.disallow == [] && NoRules.allow == [];
    assert ParseLines(lines, parseFloat) == Run(lines, Initial, parseFloat).rules;
    assert RulesOr(Lookup([], a)) == NoRules;
    var cd := Collected(lines, None, a, DisallowRule);
    var cw := Collected(lines, None, a, AllowRule);
    assert [] + cd == cd && [] + cw == cw;
  }

  lemma {:induction false} RunAppend(xs: seq<Line>, ys: seq<Line>, st: ParseState, parseFloat: string -> Option<real>)
    ensures Run(xs + ys, st, parseFloat) == Run(ys, Run(xs, st, parseFloat), parseFloat)
    decreases |xs|
  {
    if xs == [] {
      assert xs + ys == ys;
      assert Run(xs, st, parseFloat) == st;
    } else {
      assert (xs + ys)[0] == xs[0] && (xs + ys)[1..] == xs[1..] + ys;
      RunAppend(xs[1..], ys, Step(st, xs[0], parseFloat), parseFloat);
    }
  }

  /** The crawl delay is the last one `float` accepts; one it rejects leaves the earlier value. */
  lemma {:induction false} CrawlDelayIsLast(lines: seq<Line>, st: ParseState, parseFloat: string -> Option<real>)
    ensures Run(lines, st, parseFloat).rules.crawlDelay ==
      if LastDelay(lines, parseFloat).Some? then LastDelay(lines, parseFloat) else st.rules.crawlDelay
    decreases |lines|
  {
    if lines == [] {
      assert Run(lines, st, parseFloat) == st && LastDelay(lines, parseFloat) == None;
    } else {
      var init := lines[..|lines| - 1];
      var l := lines[|lines| - 1];
      assert lines == init + [l];
      RunAppend(init, [l], st, parseFloat);
      CrawlDelayIsLast(init, st, parseFloat);
      var mid := Run(init, st, parseFloat);
      assert Run([l], mid, parseFloat) == Step(mid, l, parseFloat);
    }
  }

  /** A line that reads as nothing changes nothing. */
  lemma SkippedLine(raw: string, rest: seq<Line>, st: ParseState, parseFloat: string -> Option<real>)
    requires var line := Strip(raw); line == [] || line[0] == '#' || ':' !in line
    ensures Run([ClassifyLine(raw)] + rest, st, parseFloat) == Run(rest, st, parseFloat)
  {
    assert ([ClassifyLine(raw)] + rest)[1..] == rest;
  }
}

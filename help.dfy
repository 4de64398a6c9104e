/**
 * The `help` command: lists, module by module, the commands whose
 * preconditions the caller passes.
 *
 * The reference definitions below describe the listing of the first `k`
 * registered commands, so that the command's loop can be related to them one
 * command at a time.
 */
module Help {

  /** A registered command: the name of the module it belongs to and its own name. */
  datatype CommandInfo = CommandInfo(moduleName: string, name: string)

  /**
   * A section of the listing: a module header and the permitted commands
   * gathered under it. A command whose module was already seen is gathered
   * under the section being built, which is its own module's section when the
   * commands of each module are registered together.
   */
  datatype Section = Section(title: string, listed: seq<string>)

  const Intro: string := "These are the commands you can use:"

  /** The module names of the first `k` commands, each once, in order of first appearance. */
  function ModulesBefore(cmds: seq<CommandInfo>, k: nat): seq<string>
    requires k <= |cmds|
  {
    if k == 0 then []
    else
      var prev := ModulesBefore(cmds, k - 1);
      if cmds[k - 1].moduleName in prev then prev else prev + [cmds[k - 1].moduleName]
  }

  /** The names of the first `k` commands whose preconditions passed, in order. */
  function Permitted(cmds: seq<CommandInfo>, passes: seq<bool>, k: nat): seq<string>
    requires k <= |cmds| == |passes|
  {
    if k == 0 then []
    else Permitted(cmds, passes, k - 1) + (if passes[k - 1] then [cmds[k - 1].name] else [])
  }

  /**
   * The grouping of the first `k` commands: the finished sections and the one
   * being built.
   */
  datatype Listing = Listing(done: seq<Section>, current: Section)

  /**
   * The grouping of the first `k` commands: a command of a module not seen
   * before closes the section being built and opens a new one; any other
   * command joins the section being built.
   */
  function Build(cmds: seq<CommandInfo>, passes: seq<bool>, k: nat): Listing
    requires k <= |cmds| == |passes|
  {
    if k == 0 then Listing([], Section("", []))
    else
      var l := Build(cmds, passes, k - 1);
      var c := cmds[k - 1];
      if c.moduleName !in ModulesBefore(cmds, k - 1) then
        Listing(if k == 1 then [] else l.done + [l.current], Section(c.moduleName, if passes[k - 1] then [c.name] else []))
      else if passes[k - 1] then Listing(l.done, Section(l.current.title, l.current.listed + [c.name]))
      else l
  }

  /** The sections of the listing, in order. */
  function Sections(cmds: seq<CommandInfo>, passes: seq<bool>): seq<Section>
    requires |cmds| == |passes|
  {
    if cmds == [] then []
    else
      var l := Build(cmds, passes, |cmds|);
      l.done + [l.current]
  }

  /** The header line of a section. */
  function Header(title: string): string
  {
    "\n**" + title + ":**"
  }

  /** What goes before the entry at `index` of a section: a space before the first, a comma after that. */
  function Separator(index: nat): string
  {
    if index == 0 then " " else ", "
  }

  /** A command name in backquotes. */
  function Quote(name: string): string
  {
    "`" + name + "`"
  }

  /** The list part of a section: its entries, each after its separator. */
  function ListText(names: seq<string>): string
  {
    if names == [] then ""
    else
      var n := |names| - 1;
      ListText(names[..n]) + Separator(n) + Quote(names[n])
  }

  /** A section as it appears in the listing. */
  function SectionText(s: Section): string
  {
    Header(s.title) + ListText(s.listed)
  }

  /** The sections that have at least one permitted command, rendered one after another. */
  function Shown(secs: seq<Section>): string
  {
    if secs == [] then ""
    else
      var last := secs[|secs| - 1];
      Shown(secs[..|secs| - 1]) + (if last.listed != [] then SectionText(last) else "")
  }

  /**
   * The reply of `help`: the introduction, then every section that has a
   * permitted command; the last section, when shown, ends with a line break.
   */
  function HelpText(cmds: seq<CommandInfo>, passes: seq<bool>): string
    requires |cmds| == |passes|
  {
    if cmds == [] then Intro
    else
      var l := Build(cmds, passes, |cmds|);
      Intro + Shown(l.done) + (if l.current.listed != [] then SectionText(l.current) + "\n" else "")
  }

  /** Closing a section adds its text to the listing exactly when it lists something. */
  lemma ShownAppend(secs: seq<Section>, s: Section)
    ensures s.listed == [] ==> Shown(secs + [s]) == Shown(secs)
    ensures s.listed != [] ==> Intro + Shown(secs + [s]) == Intro + Shown(secs) + SectionText(s)
  {
    assert (secs + [s])[..|secs|] == secs;
  }

  lemma NothingShown()
    ensures Intro + Shown([]) == Intro
  {
    var none: seq<Section> := [];
    assert Shown(none) == "";
  }

  lemma EmptySectionText(title: string)
    ensures SectionText(Section(title, [])) == Header(title)
  {
  }

  /** A section's first entry follows its header after a single space. */
  lemma FirstEntryText(title: string, x: string)
    ensures SectionText(Section(title, [x])) == Header(title) + Separator(0) + Quote(x)
  {
    var none: seq<string> := [];
    assert [x][..0] == none;
    assert ListText([x]) == Separator(0) + Quote(x);
  }

  /** Adding an entry to a section extends its text by the separator and the quoted name. */
  lemma SectionTextAppend(s: Section, x: string)
    ensures SectionText(Section(s.title, s.listed + [x])) == SectionText(s) + Separator(|s.listed|) + Quote(x)
  {
    assert (s.listed + [x])[..|s.listed|] == s.listed;
  }

  /**
   * The state of `HelpCommand` after the first `k` commands: the output so
   * far holds the finished sections, `section` the text of the one being
   * built, `i` the number of commands listed in it, and `seenModules` the
   * modules met so far.
   */
  predicate Rendered(cmds: seq<CommandInfo>, passes: seq<bool>, k: nat,
                     output: string, section: string, seenModules: seq<string>, i: nat)
    requires k <= |cmds| == |passes|
  {
    && seenModules == ModulesBefore(cmds, k)
    && (k == 0 ==> output == Intro && i == 0)
    && (k > 0 ==> var l := Build(cmds, passes, k);
          && output == Intro + Shown(l.done)
          && section == SectionText(l.current)
          && i == |l.current.listed|)
  }

  /** One turn of the loop of `HelpCommand`: command `k`, whose precondition check gave `passes[k]`. */
  method VisitCommand(cmds: seq<CommandInfo>, passes: seq<bool>, k: nat,
                      output: string, section: string, seenModules: seq<string>, i: nat)
    returns (output': string, section': string, seenModules': seq<string>, i': nat)
    requires k < |cmds| == |passes|
    requires Rendered(cmds, passes, k, output, section, seenModules, i)
    ensures Rendered(cmds, passes, k + 1, output', section', seenModules', i')
  {
    output', section', seenModules', i' := output, section, seenModules, i;
    var c := cmds[k];
    ghost var l := Build(cmds, passes, k);
    ghost var isNew := c.moduleName !in seenModules;
    ghost var closed, building := l.done, l.current;
    if c.moduleName !in seenModules' {
      if k > 0 {
        ShownAppend(l.done, l.current);
        closed := l.done + [l.current];
      } else {
        NothingShown();
        closed := [];
      }
      if i' > 0 {
        output' := output' + section';
      }
      section' := Header(c.moduleName);
      EmptySectionText(c.moduleName);
      seenModules' := seenModules' + [c.moduleName];
      i' := 0;
      building := Section(c.moduleName, []);
    }
    if passes[k] {
      if isNew {
        FirstEntryText(c.moduleName, c.name);
      } else {
        SectionTextAppend(l.current, c.name);
      }
      section' := section' + Separator(i');
      i' := i' + 1;
      section' := section' + Quote(c.name);
      building := Section(building.title, if isNew then [c.name] else building.listed + [c.name]);
    }
    assert Build(cmds, passes, k + 1) == Listing(closed, building);
  }

  /**
   * `HelpCommand`: walks the commands in order, keeping the text of the
   * section being built in `section` and the number of commands listed in it
   * in `i`; a section is added to the output only when the next one starts or
   * at the end, and only if it lists something. `passes[k]` is the outcome of
   * command `k`'s precondition check.
   */
  method HelpCommand(cmds: seq<CommandInfo>, passes: seq<bool>) returns (output: string)
    requires |cmds| == |passes|
    ensures output == HelpText(cmds, passes)
  {
    output := Intro;
    var section := "";
    var seenModules: seq<string> := [];
    var i := 0;
    for k := 0 to |cmds|
      invariant Rendered(cmds, passes, k, output, section, seenModules, i)
    {
      output, section, seenModules, i := VisitCommand(cmds, passes, k, output, section, seenModules, i);
    }
    RenderedAll(cmds, passes, output, section, seenModules, i);
    output := if i > 0 then output + section + "\n" else output;
  }

  /** After the last command, closing the section being built gives the reply. */
  lemma RenderedAll(cmds: seq<CommandInfo>, passes: seq<bool>,
                    output: string, section: string, seenModules: seq<string>, i: nat)
    requires |cmds| == |passes|
    requires Rendered(cmds, passes, |cmds|, output, section, seenModules, i)
    ensures HelpText(cmds, passes) == if i > 0 then output + section + "\n" else output
  {
    if cmds != [] {
      var l := Build(cmds, passes, |cmds|);
      assert i > 0 <==> l.current.listed != [];
    }
  }

  /** The listed names, section after section. */
  function AllListed(secs: seq<Section>): seq<string>
  {
    if secs == [] then [] else AllListed(secs[..|secs| - 1]) + secs[|secs| - 1].listed
  }

  lemma AllListedAppend(secs: seq<Section>, s: Section)
    ensures AllListed(secs + [s]) == AllListed(secs) + s.listed
  {
    assert (secs + [s])[..|secs|] == secs;
  }

  /** The first `k` commands: every permitted one is listed, in order, and nothing else is. */
  lemma {:induction false} ListedSoFar(cmds: seq<CommandInfo>, passes: seq<bool>, k: nat)
    requires k <= |cmds| == |passes|
    ensures var l := Build(cmds, passes, k);
      AllListed(l.done) + l.current.listed == Permitted(cmds, passes, k)
  {
    if k > 0 {
      ListedSoFar(cmds, passes, k - 1);
      var l := Build(cmds, passes, k - 1);
      if k > 1 && cmds[k - 1].moduleName !in ModulesBefore(cmds, k - 1) {
        AllListedAppend(l.done, l.current);
      }
    }
  }

  /** The titles of the sections, in order. */
  function Titles(secs: seq<Section>): seq<string>
  {
    if secs == [] then [] else Titles(secs[..|secs| - 1]) + [secs[|secs| - 1].title]
  }

  lemma TitlesAppend(secs: seq<Section>, s: Section)
    ensures Titles(secs + [s]) == Titles(secs) + [s.title]
  {
    assert (secs + [s])[..|secs|] == secs;
  }

  /** The first `k` commands: one section per module, in order of first appearance. */
  lemma {:induction false} TitlesSoFar(cmds: seq<CommandInfo>, passes: seq<bool>, k: nat)
    requires 0 < k <= |cmds| == |passes|
    ensures var l := Build(cmds, passes, k);
      Titles(l.done + [l.current]) == ModulesBefore(cmds, k)
  {
    var l := Build(cmds, passes, k);
    TitlesAppend(l.done, l.current);
    if k > 1 {
      TitlesSoFar(cmds, passes, k - 1);
      var p := Build(cmds, passes, k - 1);
      TitlesAppend(p.done, p.current);
    }
  }

  /** The modules of the first `k` commands: each of them once, and nothing else. */
  lemma {:induction false} ModulesDistinct(cmds: seq<CommandInfo>, k: nat)
    requires k <= |cmds|
    ensures var ms := ModulesBefore(cmds, k);
      && (forall a, b :: 0 <= a < b < |ms| ==> ms[a] != ms[b])
      && (forall j :: 0 <= j < k ==> cmds[j].moduleName in ms)
      && (forall x :: x in ms ==> exists j :: 0 <= j < k && cmds[j].moduleName == x)
  {
    if k > 0 {
      ModulesDistinct(cmds, k - 1);
    }
  }

  /** Every permitted command is listed, in registration order, and nothing else is. */
  lemma ListedArePermitted(cmds: seq<CommandInfo>, passes: seq<bool>)
    requires |cmds| == |passes|
    ensures AllListed(Sections(cmds, passes)) == Permitted(cmds, passes, |cmds|)
  {
    ListedSoFar(cmds, passes, |cmds|);
    if cmds != [] {
      var l := Build(cmds, passes, |cmds|);
      AllListedAppend(l.done, l.current);
    }
  }

  /**
   * One section per module: the section titles are the distinct module names
   * of the commands, in order of first appearance.
   */
  lemma OneSectionPerModule(cmds: seq<CommandInfo>, passes: seq<bool>)
    requires |cmds| == |passes|
    ensures var ts := Titles(Sections(cmds, passes));
      && (forall a, b :: 0 <= a < b < |ts| ==> ts[a] != ts[b])
      && (forall j :: 0 <= j < |cmds| ==> cmds[j].moduleName in ts)
      && (forall x :: x in ts ==> exists j :: 0 <= j < |cmds| && cmds[j].moduleName == x)
  {
    ModulesDistinct(cmds, |cmds|);
    if cmds != [] {
      TitlesSoFar(cmds, passes, |cmds|);
    }
  }

  /** The quoted names joined by ", ", as the listing writes them. */
  function Quoted(names: seq<string>): string
  {
    if names == [] then ""
    else if |names| == 1 then Quote(names[0])
    else Quoted(names[..|names| - 1]) + ", " + Quote(names[|names| - 1])
  }

  /** The list part of a section: a single space, then the quoted names separated by ", ". */
  lemma {:induction false} ListTextShape(names: seq<string>)
    ensures ListText(names) == if names == [] then "" else " " + Quoted(names)
  {
    if |names| > 1 {
      var n := |names| - 1;
      ListTextShape(names[..n]);
    }
  }

  /**
   * The reply is the introduction followed by the sections of the listing,
   * each shown only when it lists a permitted command; a line break closes
   * the reply when its last section is shown.
   */
  lemma HelpTextOfSections(cmds: seq<CommandInfo>, passes: seq<bool>)
    requires |cmds| == |passes|
    ensures var secs := Sections(cmds, passes);
      HelpText(cmds, passes) == Intro + Shown(secs) + (if secs != [] && secs[|secs| - 1].listed != [] then "\n" else "")
  {
    if cmds != [] {
      var l := Build(cmds, passes, |cmds|);
      ShownAppend(l.done, l.current);
    } else {
      NothingShown();
    }
  }
}

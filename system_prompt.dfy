// The system prompt an agent runs with: optional sections assembled in a
// fixed order from the agent's configuration, the selected directories and
// a few workspace files. File contents, the clock's formatted readings and
// the host's platform strings are inputs.

module SystemPrompt {
  import opened Text

  const BootstrapLimit: nat := 20000
  const TruncationMarker: string := "\n\n[... truncated ...]"
  const Bootstrap: string := "BOOTSTRAP.md"

  /** The agent configuration keys the builder reads; None when a key is absent. */
  datatype AgentConfig = AgentConfig(name: Option<string>, description: Option<string>,
                                     systemPrompt: Option<string>, model: Option<string>)

  /** The clock readings as the builder formats them: UTC and local time, and the zone name
      ("" when the platform gives none). */
  datatype Clock = Clock(utc: string, local: string, zone: string)

  /** The platform's system and machine names. */
  datatype Host = Host(os: string, arch: string)

  /** What the builder is constructed with, and what it reads: contents(f) is the text of the
      workspace file f, None when it is missing or unreadable. */
  datatype PromptBuilder = PromptBuilder(
    workingDirectory: string,
    config: AgentConfig,
    channelContext: Option<map<string, string>>,
    addDirs: seq<string>,
    contents: string -> Option<string>)

  function Get(o: Option<string>, default: string): string
  {
    if o.Some? then o.value else default
  }

  // ---------------------------------------------------------------- sections

  /** _section_identity: the agent's name, and its description when there is one. */
  function Identity(c: AgentConfig): (r: string)
    ensures StartsWith(r, "You are " + Get(c.name, "Assistant") + ", a personal assistant running inside owork.")
    ensures r == "You are " + Get(c.name, "Assistant") + ", a personal assistant running inside owork."
                 + (if Truthy(c.description) then " " + c.description.value else "")
    ensures |r| > |"You are " + Get(c.name, "Assistant") + ", a personal assistant running inside owork."|
            <==> Truthy(c.description)
  {
    var line := "You are " + Get(c.name, "Assistant") + ", a personal assistant running inside owork.";
    var r := if Truthy(c.description) then line + " " + c.description.value else line;
    assert r[..|line|] == line;
    r
  }

  const Safety: string :=
    "## Safety Principles\n"
    + "- You have no independent goals beyond helping the user.\n"
    + "- Never attempt self-preservation, self-replication, or resource acquisition.\n"
    + "- Do not seek to expand your own access or capabilities.\n"
    + "- Prioritize safety over task completion.\n"
    + "- Do not manipulate or deceive to gain permissions.\n"
    + "- When uncertain, ask instead of guessing."

  function WorkspaceLine(dir: string): string
  {
    "Your working directory is: `" + dir + "`"
  }

  const DirsHeader: string := "## Selected Working Directories"

  function DirLine(d: string): string
  {
    "- `" + d + "`"
  }

  /** The header followed by one line per directory, in order. */
  function DirLines(dirs: seq<string>): (lines: seq<string>)
    ensures |lines| == |dirs| + 1 && lines[0] == DirsHeader
    ensures forall i :: 0 <= i < |dirs| ==> lines[i + 1] == DirLine(dirs[i])
    decreases |dirs|
  {
    if dirs == [] then [DirsHeader] else DirLines(dirs[..|dirs| - 1]) + [DirLine(dirs[|dirs| - 1])]
  }

  /** _section_selected_dirs: absent without directories. */
  function SelectedDirs(dirs: seq<string>): (r: Option<string>)
    ensures r.None? <==> dirs == []
  {
    if dirs == [] then None else Some(Join("\n", DirLines(dirs)))
  }

  /** _section_selected_dirs, appending line by line. */
  method SelectedDirsSection(dirs: seq<string>) returns (r: Option<string>)
    ensures r == SelectedDirs(dirs)
  {
    if dirs == [] {
      return None;
    }
    var lines := [DirsHeader];
    for i := 0 to |dirs|
      invariant lines == DirLines(dirs[..i])
    {
      assert dirs[..i + 1][..i] == dirs[..i];
      lines := lines + [DirLine(dirs[i])];
    }
    assert dirs[..|dirs|] == dirs;
    r := Some(Join("\n", lines));
  }

  /** The selected-directories section opens with its header and ends with the last directory. */
  lemma SelectedDirsShape(dirs: seq<string>)
    requires dirs != []
    ensures StartsWith(SelectedDirs(dirs).value, DirsHeader)
    ensures EndsWith(SelectedDirs(dirs).value, DirLine(dirs[|dirs| - 1]))
  {
    JoinStartsWithFirst("\n", DirLines(dirs));
    JoinEndsWithLast("\n", DirLines(dirs));
  }

  /** _section_datetime. */
  function DateTime(clock: Clock): string
  {
    "Current date/time: " + clock.utc + " / " + clock.local + " " + (if clock.zone != "" then clock.zone else "Local")
  }

  /** _section_extra_prompt: absent unless the agent has a non-empty system prompt. */
  function ExtraPrompt(c: AgentConfig): (r: Option<string>)
    ensures r.None? <==> !Truthy(c.systemPrompt)
  {
    if Truthy(c.systemPrompt) then Some("## Additional Instructions\n" + c.systemPrompt.value) else None
  }

  /** The content kept from a workspace file: BOOTSTRAP.md beyond its limit is cut to the limit and
      marked; other files are kept whole. */
  function Truncated(fileName: string, content: string): (r: string)
    ensures fileName != Bootstrap || |content| <= BootstrapLimit ==> r == content
    ensures fileName == Bootstrap && |content| > BootstrapLimit ==>
              r == content[..BootstrapLimit] + TruncationMarker && |r| == BootstrapLimit + |TruncationMarker|
  {
    if fileName == Bootstrap && |content| > BootstrapLimit then content[..BootstrapLimit] + TruncationMarker
    else content
  }

  /** _load_workspace_file: nothing when the file is missing or blank; otherwise the header, a
      newline and the stripped (and, for BOOTSTRAP.md, truncated) content. */
  function LoadWorkspaceFile(fileName: string, header: string, content: Option<string>): (r: Option<string>)
    ensures r.None? <==> content.None? || Strip(content.value) == ""
    ensures r.Some? ==> r.value == header + "\n" + Truncated(fileName, Strip(content.value))
  {
    if content.None? then None
    else
      var c := Strip(content.value);
      if c == "" then None else Some(header + "\n" + Truncated(fileName, c))
  }

  /** A loaded BOOTSTRAP.md never exceeds its header, the limit and the marker. */
  lemma BootstrapIsBounded(header: string, content: Option<string>)
    requires LoadWorkspaceFile(Bootstrap, header, content).Some?
    ensures |LoadWorkspaceFile(Bootstrap, header, content).value| <= |header| + 1 + BootstrapLimit + |TruncationMarker|
  {
  }

  function UserSection(b: PromptBuilder): Option<string>
  {
    LoadWorkspaceFile("USER.md", "## User", b.contents("USER.md"))
  }

  /** The project-context parts that are present, in the order identity, soul, bootstrap. */
  function ContextParts(b: PromptBuilder): seq<string>
  {
    var identity := LoadWorkspaceFile("IDENTITY.md", "### Identity", b.contents("IDENTITY.md"));
    var soul := LoadWorkspaceFile("SOUL.md", "### Soul", b.contents("SOUL.md"));
    var boot := LoadWorkspaceFile(Bootstrap, "### Bootstrap", b.contents(Bootstrap));
    Present([identity, soul, boot])
  }

  /** _section_project_context: absent when none of the three files gives anything. */
  function ProjectContext(b: PromptBuilder): (r: Option<string>)
    ensures r.None? <==> ContextParts(b) == []
  {
    var parts := ContextParts(b);
    if parts == [] then None else Some("## Project Context\n" + Join("\n\n", parts))
  }

  /** _section_project_context, appending part by part. */
  method ProjectContextSection(b: PromptBuilder) returns (r: Option<string>)
    ensures r == ProjectContext(b)
  {
    var parts: seq<string> := [];
    var identity := LoadWorkspaceFile("IDENTITY.md", "### Identity", b.contents("IDENTITY.md"));
    if identity.Some? && identity.value != "" {
      parts := parts + [identity.value];
    }
    assert parts == Kept(identity);
    var soul := LoadWorkspaceFile("SOUL.md", "### Soul", b.contents("SOUL.md"));
    if soul.Some? && soul.value != "" {
      parts := parts + [soul.value];
    }
    assert parts == Kept(identity) + Kept(soul);
    var boot := LoadWorkspaceFile(Bootstrap, "### Bootstrap", b.contents(Bootstrap));
    if boot.Some? && boot.value != "" {
      parts := parts + [boot.value];
    }
    assert parts == Kept(identity) + Kept(soul) + Kept(boot);
    PresentThree(identity, soul, boot);
    if parts == [] {
      return None;
    }
    r := Some("## Project Context\n" + Join("\n\n", parts));
  }

  lemma PresentThree(a: Option<string>, b: Option<string>, c: Option<string>)
    ensures Present([a, b, c]) == Kept(a) + Kept(b) + Kept(c)
  {
    assert Present([a]) == Kept(a) by { assert [a][..0] == []; }
    assert Present([a, b]) == Kept(a) + Kept(b) by { assert [a, b][..1] == [a]; }
    assert [a, b, c][..2] == [a, b];
  }

  /** The project-context section is absent exactly when none of the three files gives
      anything, and otherwise lists what they give in the order identity, soul, bootstrap. */
  lemma ProjectContextParts(b: PromptBuilder)
    ensures var identity := LoadWorkspaceFile("IDENTITY.md", "### Identity", b.contents("IDENTITY.md"));
            var soul := LoadWorkspaceFile("SOUL.md", "### Soul", b.contents("SOUL.md"));
            var boot := LoadWorkspaceFile(Bootstrap, "### Bootstrap", b.contents(Bootstrap));
            (ProjectContext(b).None? <==> identity.None? && soul.None? && boot.None?)
            && ContextParts(b) == Kept(identity) + Kept(soul) + Kept(boot)
  {
    var identity := LoadWorkspaceFile("IDENTITY.md", "### Identity", b.contents("IDENTITY.md"));
    var soul := LoadWorkspaceFile("SOUL.md", "### Soul", b.contents("SOUL.md"));
    var boot := LoadWorkspaceFile(Bootstrap, "### Bootstrap", b.contents(Bootstrap));
    PresentThree(identity, soul, boot);
  }

  /** The channel the agent serves: "direct" without a (non-empty) channel context. */
  function Channel(ctx: Option<map<string, string>>): (r: string)
    ensures ctx.None? || ctx.value == map[] ==> r == "direct"
  {
    if ctx.Some? && ctx.value != map[] then
      (if "channel_type" in ctx.value then ctx.value["channel_type"] else "direct")
    else "direct"
  }

  /** _section_runtime. */
  function Runtime(b: PromptBuilder, host: Host): string
  {
    "`agent=" + Get(b.config.name, "Assistant") + " | model=" + Get(b.config.model, "default")
    + " | os=" + host.os + " (" + host.arch + ") | channel=" + Channel(b.channelContext) + "`"
  }

  // ---------------------------------------------------------------- build

  /** A section as a list of at most one part: nothing when it is absent or empty. */
  function Kept(s: Option<string>): (r: seq<string>)
    ensures |r| <= 1 && (r != [] <==> s.Some? && s.value != "")
    ensures r != [] ==> r[0] == s.value
  {
    if s.Some? && s.value != "" then [s.value] else []
  }

  /** The sections that are present and non-empty, in order. */
  function Present(sections: seq<Option<string>>): (r: seq<string>)
    ensures |r| <= |sections|
    ensures forall i :: 0 <= i < |r| ==> r[i] != ""
    decreases |sections|
  {
    if sections == [] then []
    else Present(sections[..|sections| - 1]) + Kept(sections[|sections| - 1])
  }

  /** A part is in the prompt's list exactly when some section holds it. */
  lemma {:induction false} PresentIff(ss: seq<Option<string>>, x: string)
    ensures x in Present(ss) <==> x != "" && Some(x) in ss
    decreases |ss|
  {
    if ss != [] {
      var init := ss[..|ss| - 1];
      PresentIff(init, x);
      assert ss == init + [ss[|ss| - 1]];
    }
  }

  /** The nine sections, in their fixed order. */
  function Sections(b: PromptBuilder, clock: Clock, host: Host): (ss: seq<Option<string>>)
    ensures |ss| == 9
  {
    [Some(Identity(b.config)), Some(Safety), Some(WorkspaceLine(b.workingDirectory)),
     SelectedDirs(b.addDirs), UserSection(b), Some(DateTime(clock)), ExtraPrompt(b.config),
     ProjectContext(b), Some(Runtime(b, host))]
  }

  /** The prompt: the present sections joined by blank lines. */
  function Prompt(b: PromptBuilder, clock: Clock, host: Host): string
  {
    Join("\n\n", Present(Sections(b, clock, host)))
  }

  /** build. */
  method Build(b: PromptBuilder, clock: Clock, host: Host) returns (prompt: string)
    ensures prompt == Prompt(b, clock, host)
  {
    var dirs := SelectedDirsSection(b.addDirs);
    var context := ProjectContextSection(b);
    var sections := [Some(Identity(b.config)), Some(Safety), Some(WorkspaceLine(b.workingDirectory)),
                     dirs, UserSection(b), Some(DateTime(clock)), ExtraPrompt(b.config),
                     context, Some(Runtime(b, host))];
    prompt := Join("\n\n", Present(sections));
  }

  /** Leading sections that are present stay at the front. */
  lemma {:induction false} PresentFirst(sections: seq<Option<string>>)
    requires sections != [] && sections[0].Some? && sections[0].value != ""
    ensures Present(sections) != [] && Present(sections)[0] == sections[0].value
    decreases |sections|
  {
    if |sections| > 1 {
      PresentFirst(sections[..|sections| - 1]);
    }
  }

  lemma {:induction false} PresentLast(sections: seq<Option<string>>)
    requires sections != [] && sections[|sections| - 1].Some? && sections[|sections| - 1].value != ""
    ensures Present(sections) != [] && Present(sections)[|Present(sections)| - 1] == sections[|sections| - 1].value
  {
  }

  /** The prompt always opens with the identity line and closes with the runtime line. */
  lemma PromptOpensAndCloses(b: PromptBuilder, clock: Clock, host: Host)
    ensures StartsWith(Prompt(b, clock, host), Identity(b.config))
    ensures EndsWith(Prompt(b, clock, host), Runtime(b, host))
  {
    var ss := Sections(b, clock, host);
    assert Identity(b.config) != "" by {
      assert StartsWith(Identity(b.config), "You are ");
    }
    PresentFirst(ss);
    PresentLast(ss);
    JoinStartsWithFirst("\n\n", Present(ss));
    JoinEndsWithLast("\n\n", Present(ss));
  }
}

// Routing rules of the channel gateway: who may write to a channel, which
// messages the rate limiter lets through, how staged attachment names are
// made safe and unique, how the text handed to the agent is assembled, how
// the agent's event stream becomes one reply, and when a channel
// conversation resumes its agent session. Database reads and writes, the
// workspace directory and the agent itself are inputs.

module Gateway {
  import opened Text
  import opened ChannelBase
  import RateLimit

  // ---------------------------------------------------------------- access control

  /** A channel's access settings: the configured mode (None when the key is absent) and the
      decoded sender lists (an absent or undecodable list is empty). */
  datatype Access = Access(mode: Option<string>, allowed: seq<string>, blocked: seq<string>)

  /** The mode in force: "allowlist" when none is configured. */
  function ModeOf(a: Access): string
  {
    if a.mode.Some? then a.mode.value else "allowlist"
  }

  /** _check_access: "open" admits everyone, "allowlist" only the listed senders, "blocklist"
      everyone not listed, and any other mode nobody. */
  function CheckAccess(a: Access, sender: string): (ok: bool)
    ensures ok ==> ModeOf(a) == "open" || ModeOf(a) == "allowlist" || ModeOf(a) == "blocklist"
    ensures ModeOf(a) == "allowlist" ==> (ok <==> sender in a.allowed)
    ensures ModeOf(a) == "blocklist" ==> (ok <==> sender !in a.blocked)
    ensures ModeOf(a) == "open" ==> ok
  {
    var mode := ModeOf(a);
    if mode == "open" then true
    else if mode == "allowlist" then sender in a.allowed
    else if mode == "blocklist" then sender !in a.blocked
    else false
  }

  /** An allowlist and a blocklist naming the same senders admit complementary sets of senders. */
  lemma AllowAndBlockAreComplementary(senders: seq<string>, other: seq<string>, sender: string)
    ensures CheckAccess(Access(Some("allowlist"), senders, other), sender)
            != CheckAccess(Access(Some("blocklist"), other, senders), sender)
  {
  }

  /** A channel without an access mode is an allowlist: with no senders listed it admits nobody. */
  lemma UnconfiguredAdmitsNobody(blocked: seq<string>, sender: string)
    ensures !CheckAccess(Access(None, [], blocked), sender)
  {
  }

  // ---------------------------------------------------------------- screening

  /** The channel settings the gateway reads for an inbound message. */
  datatype Channel = Channel(agentId: Option<string>, access: Access, rateLimit: Option<int>)

  /** The per-minute limit: 10 when the channel has none. */
  function RateLimitOf(ch: Channel): int
  {
    if ch.rateLimit.Some? then ch.rateLimit.value else 10
  }

  datatype Verdict = NoAgent | Denied | Throttled | Accepted

  /** Steps 1-3 of handle_inbound_message: a channel without an agent drops the message, then
      access control runs, and only an admitted sender is counted by the rate limiter. */
  method Screen(limiter: RateLimit.SlidingWindowLimiter, ch: Channel, sender: string, now: real)
    returns (v: Verdict)
    modifies limiter
    ensures !Truthy(ch.agentId) ==> v == NoAgent && limiter.windows == old(limiter.windows)
    ensures Truthy(ch.agentId) && !CheckAccess(ch.access, sender) ==>
              v == Denied && limiter.windows == old(limiter.windows)
    ensures Truthy(ch.agentId) && CheckAccess(ch.access, sender) && RateLimitOf(ch) <= 0 ==>
              v == Accepted && limiter.windows == old(limiter.windows)
    ensures Truthy(ch.agentId) && CheckAccess(ch.access, sender) && RateLimitOf(ch) > 0 ==>
              var a := RateLimit.Admit(RateLimit.WindowOf(old(limiter.windows), sender), RateLimitOf(ch), now);
              (v == Accepted <==> a.allowed) && (v == Throttled <==> !a.allowed)
              && limiter.windows == old(limiter.windows)[sender := a.window]
  {
    if !Truthy(ch.agentId) {
      return NoAgent;
    }
    if !CheckAccess(ch.access, sender) {
      return Denied;
    }
    var ok := limiter.IsAllowed(sender, RateLimitOf(ch), now);
    v := if ok then Accepted else Throttled;
  }

  // ---------------------------------------------------------------- file names

  /** The characters the staging pattern replaces: separators, shell metacharacters, controls. */
  predicate Unsafe(c: char)
  {
    c == '/' || c == '\\' || c == ':' || c == '*' || c == '?' || c == '"' || c == '<' || c == '>'
    || c == '|' || c == ';' || c <= '\U{1F}'
  }

  predicate SafeChars(s: string)
  {
    forall i :: 0 <= i < |s| ==> !Unsafe(s[i])
  }

  predicate NoDoubleUnderscore(s: string)
  {
    forall i :: 0 <= i < |s| - 1 ==> !(s[i] == '_' && s[i + 1] == '_')
  }

  /** A character that sanitising never touches: safe, and not the underscore it collapses. */
  predicate KeptChar(c: char)
  {
    !Unsafe(c) && c != '_'
  }

  /** The characters of a name that carry its content, in order. */
  function Kept(s: string): (r: string)
    ensures |r| <= |s|
    ensures forall i :: 0 <= i < |r| ==> KeptChar(r[i])
    decreases |s|
  {
    if s == [] then [] else (if KeptChar(s[0]) then [s[0]] else []) + Kept(s[1..])
  }

  lemma {:induction false} KeptConcat(a: string, b: string)
    ensures Kept(a + b) == Kept(a) + Kept(b)
    decreases |a|
  {
    if a != [] {
      assert (a + b)[0] == a[0] && (a + b)[1..] == a[1..] + b;
      KeptConcat(a[1..], b);
    } else {
      assert a + b == b;
    }
  }

  /** Prepending one character adds it to the kept characters exactly when it is kept. */
  lemma KeptCons(c: char, s: string)
    ensures Kept([c] + s) == (if KeptChar(c) then [c] else []) + Kept(s)
  {
    assert ([c] + s)[0] == c && ([c] + s)[1..] == s;
  }

  /** The last path component, whether paths use '/' or '\'. */
  function Basename(name: string): (r: string)
    ensures '/' !in r && '\\' !in r
    ensures EndsWith(name, r)
    ensures '/' !in name && '\\' !in name ==> r == name
  {
    var a := LastSegment(name, '/');
    var r := LastSegment(a, '\\');
    SuffixKeepsAbsent(a, r, '/');
    SuffixOfSuffix(name, a, r);
    r
  }

  /** Every unsafe character becomes '_'. */
  function ReplaceUnsafe(s: string): (r: string)
    ensures |r| == |s| && SafeChars(r)
    ensures forall i :: 0 <= i < |s| ==> r[i] == if Unsafe(s[i]) then '_' else s[i]
  {
    seq(|s|, i requires 0 <= i < |s| => if Unsafe(s[i]) then '_' else s[i])
  }

  /** Replacing unsafe characters keeps every kept character, in order. */
  lemma {:induction false} ReplaceUnsafeKeeps(s: string)
    ensures Kept(ReplaceUnsafe(s)) == Kept(s)
    decreases |s|
  {
    if s != [] {
      var r := ReplaceUnsafe(s);
      assert r == [r[0]] + ReplaceUnsafe(s[1..]);
      KeptCons(r[0], ReplaceUnsafe(s[1..]));
      ReplaceUnsafeKeeps(s[1..]);
    }
  }

  /** Runs of '_' collapse to one. */
  function Squeeze(s: string): (r: string)
    ensures |r| <= |s| && NoDoubleUnderscore(r)
    ensures s != [] ==> r != [] && r[0] == s[0]
    ensures SafeChars(s) ==> SafeChars(r)
    ensures NoDoubleUnderscore(s) ==> r == s
    decreases |s|
  {
    if |s| < 2 then s
    else if s[0] == '_' && s[1] == '_' then Squeeze(s[1..])
    else
      var t := Squeeze(s[1..]);
      assert forall i :: 1 <= i < |s| - 1 ==> s[1..][i - 1] == s[i] && s[1..][i] == s[i + 1];
      [s[0]] + t
  }

  /** Collapsing underscore runs keeps every kept character, in order. */
  lemma {:induction false} SqueezeKeeps(s: string)
    ensures Kept(Squeeze(s)) == Kept(s)
    decreases |s|
  {
    if |s| >= 2 {
      SqueezeKeeps(s[1..]);
      KeptCons(s[0], s[1..]);
      assert s == [s[0]] + s[1..];
      if !(s[0] == '_' && s[1] == '_') {
        KeptCons(s[0], Squeeze(s[1..]));
      }
    }
  }

  function TrimLeftUnderscores(s: string): (r: string)
    ensures |r| <= |s| && r == s[|s| - |r|..]
    ensures r != [] ==> r[0] != '_'
    ensures s == [] || s[0] != '_' ==> r == s
    ensures Kept(r) == Kept(s)
    decreases |s|
  {
    if s != [] && s[0] == '_' then
      KeptCons(s[0], s[1..]);
      assert s == [s[0]] + s[1..];
      TrimLeftUnderscores(s[1..])
    else s
  }

  function TrimRightUnderscores(s: string): (r: string)
    ensures |r| <= |s| && r == s[..|r|]
    ensures r != [] ==> r[|r| - 1] != '_'
    ensures s == [] || s[|s| - 1] != '_' ==> r == s
    ensures Kept(r) == Kept(s)
    decreases |s|
  {
    if s != [] && s[|s| - 1] == '_' then
      KeptConcat(s[..|s| - 1], [s[|s| - 1]]);
      KeptCons(s[|s| - 1], []);
      assert s == s[..|s| - 1] + [s[|s| - 1]];
      TrimRightUnderscores(s[..|s| - 1])
    else s
  }

  /** What survives trimming both ends is a stretch of the original, so it keeps the
      original's safety and single underscores. */
  lemma TrimmedSlice(s: string, l: string, r: string)
    requires |l| <= |s| && l == s[|s| - |l|..] && |r| <= |l| && r == l[..|r|]
    ensures SafeChars(s) ==> SafeChars(r)
    ensures NoDoubleUnderscore(s) ==> NoDoubleUnderscore(r)
  {
    assert forall i :: 0 <= i < |r| ==> r[i] == s[|s| - |l| + i];
  }

  /** Python's `s.strip("_")`. */
  function TrimUnderscores(s: string): (r: string)
    ensures r != [] ==> r[0] != '_' && r[|r| - 1] != '_'
    ensures SafeChars(s) ==> SafeChars(r)
    ensures NoDoubleUnderscore(s) ==> NoDoubleUnderscore(r)
    ensures s == [] || (s[0] != '_' && s[|s| - 1] != '_') ==> r == s
    ensures Kept(r) == Kept(s)
  {
    var l := TrimLeftUnderscores(s);
    var r := TrimRightUnderscores(l);
    TrimmedSlice(s, l, r);
    r
  }

  /** The basename with unsafe characters replaced, underscore runs collapsed and edge
      underscores trimmed: empty exactly when the basename had no kept character. */
  function Cleaned(b: string): (t: string)
    ensures SafeChars(t) && NoDoubleUnderscore(t)
    ensures t != [] ==> t[0] != '_' && t[|t| - 1] != '_'
    ensures Kept(t) == Kept(b)
    ensures t == [] <==> Kept(b) == []
  {
    ReplaceUnsafeKeeps(b);
    SqueezeKeeps(ReplaceUnsafe(b));
    var t := TrimUnderscores(Squeeze(ReplaceUnsafe(b)));
    if t != [] then LeadingKept(t); t else t
  }

  lemma LeadingKept(t: string)
    requires t != [] && SafeChars(t) && t[0] != '_'
    ensures Kept(t) != []
  {
    assert KeptChar(t[0]);
    KeptCons(t[0], t[1..]);
    assert t == [t[0]] + t[1..];
  }

  /** _sanitize_filename: the cleaned basename, or "attachment" when nothing is left. Every safe
      character of the basename other than '_' survives, in order, and nothing else but single
      inner underscores is added. */
  function SanitizeFilename(name: string): (r: string)
    ensures r != [] && SafeChars(r) && NoDoubleUnderscore(r)
    ensures r[0] != '_' && r[|r| - 1] != '_'
    ensures Kept(Basename(name)) != [] ==> Kept(r) == Kept(Basename(name))
    ensures Kept(Basename(name)) == [] ==> r == "attachment"
  {
    var t := Cleaned(Basename(name));
    if t == "" then DefaultNameIsSafe(); "attachment" else t
  }

  /** Only the last component of a '/'-separated path matters. */
  lemma SanitizeIgnoresDirectory(dir: string, file: string)
    requires '/' !in file
    ensures SanitizeFilename(dir + "/" + file) == SanitizeFilename(file)
  {
    LastSegmentAfter(dir, file, '/');
    assert dir + "/" + file == dir + ['/'] + file;
  }

  lemma DefaultNameIsSafe()
    ensures SafeChars("attachment") && NoDoubleUnderscore("attachment")
    ensures "attachment"[0] != '_' && "attachment"[|"attachment"| - 1] != '_'
  {
    var a := "attachment";
    assert forall i :: 0 <= i < |a| ==> 'a' <= a[i] <= 't';
  }

  /** A name that is already safe is kept as it is. */
  lemma SafeNameIsKept(name: string)
    requires name != [] && SafeChars(name) && NoDoubleUnderscore(name)
    requires name[0] != '_' && name[|name| - 1] != '_'
    ensures SanitizeFilename(name) == name
  {
    assert '/' !in name && '\\' !in name by {
      forall i | 0 <= i < |name|
        ensures name[i] != '/' && name[i] != '\\'
      {
        assert !Unsafe(name[i]);
      }
    }
    assert ReplaceUnsafe(name) == name;
  }

  /** Sanitising twice is sanitising once. */
  lemma SanitizeIdempotent(name: string)
    ensures SanitizeFilename(SanitizeFilename(name)) == SanitizeFilename(name)
  {
    SafeNameIsKept(SanitizeFilename(name));
  }

  // ---------------------------------------------------------------- collision renaming

  /** The n-th alternative name: stem_n + suffix. */
  function Candidate(stem: string, n: nat, suffix: string): (r: string)
    ensures |r| > |stem| + |suffix|
  {
    stem + "_" + NatToString(n) + suffix
  }

  /** Different counters give different names. */
  lemma CandidateInjective(stem: string, m: nat, n: nat, suffix: string)
    requires Candidate(stem, m, suffix) == Candidate(stem, n, suffix)
    ensures m == n
  {
    var a, b := NatToString(m), NatToString(n);
    var x := Candidate(stem, m, suffix);
    assert |a| == |b|;
    assert x[|stem| + 1..|stem| + 1 + |a|] == a;
    assert Candidate(stem, n, suffix)[|stem| + 1..|stem| + 1 + |b|] == b;
    NatToStringInjective(m, n);
  }

  /** The collision loop of _stage_file_to_workspace: keep the name when it is free, otherwise try
      stem_1+suffix, stem_2+suffix, ... and take the first that is free. */
  method UniqueName(existing: set<string>, name: string) returns (target: string)
    ensures target !in existing
    ensures name !in existing ==> target == name
    ensures name in existing ==>
              exists n: nat {:trigger Candidate(Stem(name), n, Suffix(name))} ::
                1 <= n && target == Candidate(Stem(name), n, Suffix(name))
                && forall j: nat :: 1 <= j < n ==> Candidate(Stem(name), j, Suffix(name)) in existing
  {
    target := name;
    if target in existing {
      var stem, suffix := Stem(target), Suffix(target);
      var counter: nat := 1;
      ghost var tried: set<string> := {};
      while target in existing
        invariant counter >= 1
        invariant target == if counter == 1 then name else Candidate(stem, counter - 1, suffix)
        invariant forall j: nat :: 1 <= j < counter - 1 ==> Candidate(stem, j, suffix) in existing
        invariant tried <= existing && target !in tried
        invariant forall j: nat :: j >= counter ==>
                    Candidate(stem, j, suffix) !in tried && Candidate(stem, j, suffix) != target
        invariant counter == 1 ==> name in existing
        decreases |existing - tried|
      {
        tried := tried + {target};
        target := Candidate(stem, counter, suffix);
        counter := counter + 1;
        forall j: nat | j >= counter
          ensures Candidate(stem, j, suffix) != target
        {
          if Candidate(stem, j, suffix) == target {
            CandidateInjective(stem, j, counter - 1, suffix);
          }
        }
      }
    }
  }

  // ---------------------------------------------------------------- message text

  /** The name an attachment is staged under: "attachment" when it has none. */
  function NameOf(a: Attachment): string
  {
    if a.fileName.Some? then a.fileName.value else "attachment"
  }

  /** The note that tells the agent where an attachment was saved. */
  function StagedLine(fileName: string, path: string): string
  {
    "[File '" + fileName + "' saved to: " + path + "]"
  }

  /** The notes for the staged attachments, in order. Empty attachments are skipped without
      staging; stage(i) is where the i-th attachment was saved, None when staging failed. */
  function StagedLines(atts: seq<Attachment>, stage: nat -> Option<string>): (lines: seq<string>)
    ensures |lines| <= |atts|
    decreases |atts|
  {
    if atts == [] then []
    else
      var i := |atts| - 1;
      var init := StagedLines(atts[..i], stage);
      if atts[i].data == [] || stage(i).None? then init else init + [StagedLine(NameOf(atts[i]), stage(i).value)]
  }

  /** _prepare_message_text: the text as it is without attachments; otherwise the text and the
      notes, joined by a blank line, each left out when empty. */
  function MessageText(text: string, atts: seq<Attachment>, stage: nat -> Option<string>): string
  {
    if atts == [] then text
    else
      var lines := StagedLines(atts, stage);
      if lines == [] && text == "" then ""
      else Join("\n\n", (if text != "" then [text] else []) + (if lines != [] then [Join("\n", lines)] else []))
  }

  /** _prepare_message_text, staging attachment by attachment. */
  method PrepareMessageText(msg: InboundMessage, stage: nat -> Option<string>) returns (r: string)
    ensures r == MessageText(msg.text, msg.attachments, stage)
  {
    if msg.attachments == [] {
      return msg.text;
    }
    var atts := msg.attachments;
    var lines: seq<string> := [];
    for i := 0 to |atts|
      invariant lines == StagedLines(atts[..i], stage)
    {
      assert atts[..i + 1][..i] == atts[..i];
      var a := atts[i];
      if a.data == [] {
        continue;
      }
      var path := stage(i);
      if path.Some? {
        lines := lines + [StagedLine(NameOf(a), path.value)];
      }
    }
    assert atts[..|atts|] == atts;
    if lines == [] && msg.text == "" {
      return "";
    }
    var parts: seq<string> := [];
    if msg.text != "" {
      parts := parts + [msg.text];
    }
    if lines != [] {
      parts := parts + [Join("\n", lines)];
    }
    r := Join("\n\n", parts);
  }

  /** When nothing could be staged the text goes to the agent unchanged. */
  lemma NothingStagedKeepsText(text: string, atts: seq<Attachment>, stage: nat -> Option<string>)
    requires StagedLines(atts, stage) == []
    ensures MessageText(text, atts, stage) == text
  {
  }

  /** With text and staged notes, the notes follow the text after a blank line, one per line. */
  lemma TextThenNotes(text: string, atts: seq<Attachment>, stage: nat -> Option<string>)
    requires text != "" && StagedLines(atts, stage) != []
    ensures MessageText(text, atts, stage) == text + "\n\n" + Join("\n", StagedLines(atts, stage))
  {
    var parts := [text] + [Join("\n", StagedLines(atts, stage))];
    assert parts[1..] == [Join("\n", StagedLines(atts, stage))];
  }

  /** Empty attachments produce no note. */
  lemma {:induction false} EmptyAttachmentsAreSkipped(atts: seq<Attachment>, stage: nat -> Option<string>)
    requires forall i :: 0 <= i < |atts| ==> atts[i].data == []
    ensures StagedLines(atts, stage) == []
    decreases |atts|
  {
    if atts != [] {
      EmptyAttachmentsAreSkipped(atts[..|atts| - 1], stage);
    }
  }

  /** When every attachment has bytes and was staged, there is one note per attachment, in order. */
  lemma {:induction false} OneNotePerStagedAttachment(atts: seq<Attachment>, stage: nat -> Option<string>)
    requires forall i :: 0 <= i < |atts| ==> atts[i].data != [] && stage(i).Some?
    ensures var lines := StagedLines(atts, stage);
            |lines| == |atts|
            && forall i :: 0 <= i < |atts| ==> lines[i] == StagedLine(NameOf(atts[i]), stage(i).value)
    decreases |atts|
  {
    if atts != [] {
      OneNotePerStagedAttachment(atts[..|atts| - 1], stage);
    }
  }

  // ---------------------------------------------------------------- the reply

  /** An event of the agent's conversation stream, as the gateway reads it. */
  datatype AgentEvent =
    | Assistant(content: seq<Block>)
    | SessionStarted(sessionId: Option<string>)
    | Finished(subtype: Option<string>, error: Option<string>, message: Option<string>)
    | Failure(error: Option<string>, message: Option<string>)
    | Other(kind: string)

  const Unexpected: string := "Sorry, an unexpected error occurred. Please try again later."
  const NoResponse: string := "(No response generated)"
  const ProcessingError: string := "Sorry, I encountered an error processing your request."

  /** The concatenated non-empty texts of an assistant message's text blocks. */
  function AssistantText(content: seq<Block>): string
    decreases |content|
  {
    if content == [] then ""
    else
      var b := content[|content| - 1];
      AssistantText(content[..|content| - 1]) + (if b.kind == Some("text") && Truthy(b.text) then b.text.value else "")
  }

  /** The text an event offers as the reply, if any. */
  function TextOf(e: AgentEvent): Option<string>
  {
    if e.Assistant? && AssistantText(e.content) != "" then Some(AssistantText(e.content)) else None
  }

  /** The detail of a failed result: its error, else its message, else its subtype. */
  function ErrorDetail(error: Option<string>, message: Option<string>, subtype: string): string
  {
    if Truthy(error) then error.value else if Truthy(message) then message.value else subtype
  }

  /** The reply an event supplies when no reply exists yet: only error results and error events do. */
  function Fallback(e: AgentEvent): (r: Option<string>)
    ensures r.Some? ==> r.value != ""
  {
    match e
    case Finished(st, err, m) =>
      if Truthy(st) && Contains(st.value, "error")
      then Some("Sorry, the agent encountered an error: " + ErrorDetail(err, m, st.value))
      else None
    case Failure(_, _) => Some(ProcessingError)
    case _ => None
  }

  /** The text of the last event that offers one. */
  function LastText(es: seq<AgentEvent>): (r: Option<string>)
    ensures r.Some? ==> r.value != ""
    decreases |es|
  {
    if es == [] then None
    else if TextOf(es[|es| - 1]).Some? then TextOf(es[|es| - 1])
    else LastText(es[..|es| - 1])
  }

  /** The fallback of the first event that reports an error. */
  function FirstFallback(es: seq<AgentEvent>): (r: Option<string>)
    ensures r.Some? ==> r.value != ""
    decreases |es|
  {
    if es == [] then None
    else
      var f := FirstFallback(es[..|es| - 1]);
      if f.Some? then f else Fallback(es[|es| - 1])
  }

  /** The reply so far: the last text, else the first fallback, else nothing. */
  function ReplySoFar(es: seq<AgentEvent>): string
  {
    if LastText(es).Some? then LastText(es).value
    else if FirstFallback(es).Some? then FirstFallback(es).value
    else ""
  }

  /** The reply sent back: the stream's reply, replaced when the stream raised, and a fixed
      notice when there is none. */
  function ReplyOf(es: seq<AgentEvent>, raised: bool): (r: string)
    ensures r != ""
  {
    if raised then Unexpected else if ReplySoFar(es) == "" then NoResponse else ReplySoFar(es)
  }

  predicate ReportsError(e: AgentEvent)
  {
    Fallback(e).Some?
  }

  /** The session id after the stream: the last non-empty id a session_start event carried. */
  function SessionAfter(es: seq<AgentEvent>, sid: string): string
    decreases |es|
  {
    if es == [] then sid
    else
      var e := es[|es| - 1];
      if e.SessionStarted? && Truthy(e.sessionId) then e.sessionId.value else SessionAfter(es[..|es| - 1], sid)
  }

  /** The reply loop of handle_inbound_message over the events the agent produced before it
      finished (raised says whether it then raised). */
  method AccumulateReply(events: seq<AgentEvent>, raised: bool, sessionId: string)
    returns (reply: string, errorOccurred: bool, sid: string)
    ensures reply == ReplyOf(events, raised)
    ensures errorOccurred == (raised || exists i :: 0 <= i < |events| && ReportsError(events[i]))
    ensures sid == SessionAfter(events, sessionId)
  {
    reply, errorOccurred, sid := "", false, sessionId;
    for i := 0 to |events|
      invariant reply == ReplySoFar(events[..i])
      invariant errorOccurred == exists j :: 0 <= j < i && ReportsError(events[j])
      invariant sid == SessionAfter(events[..i], sessionId)
    {
      assert events[..i + 1][..i] == events[..i];
      var e := events[i];
      match e {
        case Assistant(content) =>
          var current := JoinTexts(content);
          if current != "" {
            reply := current;
          }
        case SessionStarted(newSid) =>
          if Truthy(newSid) && newSid.value != sid {
            sid := newSid.value;
          }
        case Finished(subtype, err, m) =>
          if Truthy(subtype) && Contains(subtype.value, "error") {
            if reply == "" {
              reply := "Sorry, the agent encountered an error: " + ErrorDetail(err, m, subtype.value);
            }
            errorOccurred := true;
          }
        case Failure(_, _) =>
          if reply == "" {
            reply := ProcessingError;
          }
          errorOccurred := true;
        case Other(_) =>
      }
    }
    assert events[..|events|] == events;
    if raised {
      reply := Unexpected;
      errorOccurred := true;
    }
    if reply == "" {
      reply := NoResponse;
    }
  }

  /** The inner loop over an assistant message's blocks. */
  method JoinTexts(content: seq<Block>) returns (t: string)
    ensures t == AssistantText(content)
  {
    t := "";
    for i := 0 to |content|
      invariant t == AssistantText(content[..i])
    {
      assert content[..i + 1][..i] == content[..i];
      var b := content[i];
      if b.kind == Some("text") && Truthy(b.text) {
        t := t + b.text.value;
      }
    }
    assert content[..|content|] == content;
  }

  /** The last assistant message with text is the reply, whatever errors came before or after. */
  lemma LastAssistantTextWins(es: seq<AgentEvent>, k: nat)
    requires k < |es| && TextOf(es[k]).Some?
    requires forall j :: k < j < |es| ==> TextOf(es[j]).None?
    ensures ReplyOf(es, false) == TextOf(es[k]).value
  {
    LastTextAt(es, k);
  }

  lemma {:induction false} LastTextAt(es: seq<AgentEvent>, k: nat)
    requires k < |es| && TextOf(es[k]).Some?
    requires forall j :: k < j < |es| ==> TextOf(es[j]).None?
    ensures LastText(es) == TextOf(es[k])
    decreases |es|
  {
    if k < |es| - 1 {
      var init := es[..|es| - 1];
      assert init[k] == es[k];
      LastTextAt(init, k);
    }
  }

  /** Without any assistant text, the first reported error supplies the reply. */
  lemma {:induction false} FirstErrorSuppliesReply(es: seq<AgentEvent>, k: nat)
    requires k < |es| && ReportsError(es[k])
    requires forall j :: 0 <= j < |es| ==> TextOf(es[j]).None?
    requires forall j :: 0 <= j < k ==> !ReportsError(es[j])
    ensures ReplyOf(es, false) == Fallback(es[k]).value
    decreases |es|
  {
    NoTextMeansNoLastText(es);
    FirstFallbackAt(es, k);
  }

  lemma {:induction false} NoTextMeansNoLastText(es: seq<AgentEvent>)
    requires forall j :: 0 <= j < |es| ==> TextOf(es[j]).None?
    ensures LastText(es).None?
    decreases |es|
  {
    if es != [] {
      NoTextMeansNoLastText(es[..|es| - 1]);
    }
  }

  lemma {:induction false} FirstFallbackAt(es: seq<AgentEvent>, k: nat)
    requires k < |es| && ReportsError(es[k])
    requires forall j :: 0 <= j < k ==> !ReportsError(es[j])
    ensures FirstFallback(es) == Fallback(es[k])
    decreases |es|
  {
    var init := es[..|es| - 1];
    if k < |es| - 1 {
      assert init[k] == es[k];
      FirstFallbackAt(init, k);
    } else {
      NoErrorNoFallback(init);
    }
  }

  lemma {:induction false} NoErrorNoFallback(es: seq<AgentEvent>)
    requires forall j :: 0 <= j < |es| ==> !ReportsError(es[j])
    ensures FirstFallback(es).None?
    decreases |es|
  {
    if es != [] {
      NoErrorNoFallback(es[..|es| - 1]);
    }
  }

  /** A stream with neither assistant text nor a reported error gets the fixed notice. */
  lemma QuietStreamGetsNotice(es: seq<AgentEvent>)
    requires forall j :: 0 <= j < |es| ==> TextOf(es[j]).None? && !ReportsError(es[j])
    ensures ReplyOf(es, false) == NoResponse
  {
    NoTextMeansNoLastText(es);
    NoErrorNoFallback(es);
  }

  // ---------------------------------------------------------------- sessions

  /** The stored mapping of an external conversation: its record id, the agent session and the
      message count (None when the field is missing). */
  datatype ChannelSession = ChannelSession(id: string, sessionId: string, messageCount: Option<int>)

  datatype Resolved = Resolved(sessionId: string, channelSessionId: string, isNew: bool)

  /** _resolve_session: a known conversation keeps its ids and is new until it has a counted
      exchange; an unknown one gets the fresh ids and is new. */
  function ResolveSession(existing: Option<ChannelSession>, freshSession: string, freshId: string): (r: Resolved)
    ensures existing.None? ==> r == Resolved(freshSession, freshId, true)
    ensures existing.Some? ==> r.sessionId == existing.value.sessionId && r.channelSessionId == existing.value.id
    ensures existing.Some? ==>
              (r.isNew <==> existing.value.messageCount.None? || existing.value.messageCount.value == 0)
  {
    match existing
    case Some(cs) =>
      Resolved(cs.sessionId, cs.id, (if cs.messageCount.Some? then cs.messageCount.value else 0) == 0)
    case None => Resolved(freshSession, freshId, true)
  }

  /** The session the agent resumes: none for a new conversation. */
  function ResumeWith(r: Resolved): (sid: Option<string>)
    ensures sid.None? <==> r.isNew
  {
    if r.isNew then None else Some(r.sessionId)
  }

  /** The message count written after an exchange: the stored count plus two, and nothing when an
      error occurred. */
  function CountAfter(current: Option<ChannelSession>, errorOccurred: bool): (c: Option<int>)
    ensures c.Some? <==> !errorOccurred
  {
    if errorOccurred then None
    else Some((if current.Some? && current.value.messageCount.Some? then current.value.messageCount.value else 0) + 2)
  }

  /** The mapping after a series of exchanges, each failed or not. */
  function AfterExchanges(cs: ChannelSession, failed: seq<bool>): ChannelSession
    decreases |failed|
  {
    if failed == [] then cs
    else
      var c := CountAfter(Some(cs), failed[0]);
      AfterExchanges(if c.Some? then cs.(messageCount := c) else cs, failed[1..])
  }

  /** A conversation stays new, and keeps starting fresh agent sessions, exactly until an exchange
      succeeds. */
  lemma {:induction false} NewUntilFirstSuccess(cs: ChannelSession, failed: seq<bool>)
    requires cs.messageCount.Some? && cs.messageCount.value >= 0
    ensures var r := ResolveSession(Some(AfterExchanges(cs, failed)), "", "");
            r.isNew <==> cs.messageCount.value == 0 && forall i :: 0 <= i < |failed| ==> failed[i]
    ensures AfterExchanges(cs, failed).messageCount.Some?
    ensures AfterExchanges(cs, failed).messageCount.value >= cs.messageCount.value
    decreases |failed|
  {
    if failed != [] {
      var c := CountAfter(Some(cs), failed[0]);
      var next := if c.Some? then cs.(messageCount := c) else cs;
      NewUntilFirstSuccess(next, failed[1..]);
      assert forall i :: 1 <= i < |failed| ==> failed[1..][i - 1] == failed[i];
    }
  }
}

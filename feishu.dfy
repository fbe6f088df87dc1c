// The Feishu adapter's inbound side: the started/stopped state it keeps,
// and how a received message event is filtered and normalised into an
// InboundMessage. The platform SDK is not modelled: a download's outcome
// (the bytes, or None when the request failed) and the standard MIME table's
// guess for a file name are parameters.

module Feishu {
  import opened Text
  import opened ChannelBase

  // ---------------------------------------------------------------- MIME types

  /** The standard table's answer for a file name, as mimetypes.guess_type gives it. */
  type NameGuess = string -> Option<string>

  predicate HasPrefix(data: seq<byte>, magic: seq<byte>)
  {
    |magic| <= |data| && data[..|magic|] == magic
  }

  /** The leading bytes of the image formats recognised, in the order they are tried. */
  const ImageMagic: seq<(seq<byte>, string)> := [
    ([0x89, 0x50, 0x4E, 0x47, 0x0D, 0x0A, 0x1A, 0x0A], "image/png"),
    ([0xFF, 0xD8, 0xFF], "image/jpeg"),
    ([0x47, 0x49, 0x46, 0x38, 0x37, 0x61], "image/gif"),
    ([0x47, 0x49, 0x46, 0x38, 0x39, 0x61], "image/gif"),
    ([0x52, 0x49, 0x46, 0x46], "image/webp"),
    ([0x42, 0x4D], "image/bmp")
  ]

  /** The type of the first entry of table whose magic prefixes data. */
  function FirstMagic(data: seq<byte>, table: seq<(seq<byte>, string)>): (r: Option<string>)
    ensures r.Some? ==> exists k :: 0 <= k < |table| && r.value == table[k].1
    decreases |table|
  {
    if table == [] then None
    else if HasPrefix(data, table[0].0) then Some(table[0].1)
    else FirstMagic(data, table[1..])
  }

  predicate IsImageType(guess: Option<string>)
  {
    Truthy(guess) && StartsWith(guess.value, "image/")
  }

  /** _guess_image_mime: an image type guessed from the name wins; otherwise the first magic
      prefix that matches, and image/png when none does. */
  function GuessImageMime(nameGuess: Option<string>, data: seq<byte>): (r: string)
    ensures StartsWith(r, "image/")
    ensures IsImageType(nameGuess) ==> r == nameGuess.value
  {
    if IsImageType(nameGuess) then nameGuess.value
    else
      var m := FirstMagic(data, ImageMagic);
      if m.Some? then m.value else "image/png"
  }

  /** Sniffing answers with the first table entry that matches, in table order. */
  lemma {:induction false} FirstMagicIsFirstMatch(data: seq<byte>, table: seq<(seq<byte>, string)>, k: nat)
    requires k < |table| && HasPrefix(data, table[k].0)
    requires forall j :: 0 <= j < k ==> !HasPrefix(data, table[j].0)
    ensures FirstMagic(data, table) == Some(table[k].1)
    decreases k
  {
    if k > 0 {
      assert !HasPrefix(data, table[0].0);
      assert forall j :: 0 <= j < k - 1 ==> table[1..][j] == table[j + 1];
      FirstMagicIsFirstMatch(data, table[1..], k - 1);
    }
  }

  /** Bytes matching no magic prefix give no sniffed type. */
  lemma {:induction false} NoMagicNoType(data: seq<byte>, table: seq<(seq<byte>, string)>)
    requires forall j :: 0 <= j < |table| ==> !HasPrefix(data, table[j].0)
    ensures FirstMagic(data, table).None?
    decreases |table|
  {
    if table != [] {
      assert forall j :: 0 <= j < |table| - 1 ==> table[1..][j] == table[j + 1];
      NoMagicNoType(data, table[1..]);
    }
  }

  /** Without an image type from the name, data beginning with a known magic prefix gets that
      entry's type, and data beginning with none gets image/png. */
  lemma SniffedImageType(nameGuess: Option<string>, data: seq<byte>, k: nat)
    requires !IsImageType(nameGuess)
    requires k < |ImageMagic| && HasPrefix(data, ImageMagic[k].0)
    requires forall j :: 0 <= j < k ==> !HasPrefix(data, ImageMagic[j].0)
    ensures GuessImageMime(nameGuess, data) == ImageMagic[k].1
  {
    FirstMagicIsFirstMatch(data, ImageMagic, k);
  }

  lemma UnknownImageIsPng(nameGuess: Option<string>, data: seq<byte>)
    requires !IsImageType(nameGuess)
    requires forall j :: 0 <= j < |ImageMagic| ==> !HasPrefix(data, ImageMagic[j].0)
    ensures GuessImageMime(nameGuess, data) == "image/png"
  {
    NoMagicNoType(data, ImageMagic);
  }

  /** A JPEG whose name gives no image type is recognised by its bytes. */
  lemma JpegIsSniffed(nameGuess: Option<string>, data: seq<byte>)
    requires !IsImageType(nameGuess)
    requires |data| >= 3 && data[0] == 0xFF && data[1] == 0xD8 && data[2] == 0xFF
    ensures GuessImageMime(nameGuess, data) == "image/jpeg"
  {
    assert data[0] != 0x89;
    assert !HasPrefix(data, ImageMagic[0].0);
    assert data[..3] == [0xFF, 0xD8, 0xFF];
    SniffedImageType(nameGuess, data, 1);
  }

  /** _guess_mime_type: the name's guess, or application/octet-stream. */
  function GuessMimeType(nameGuess: Option<string>): (r: string)
    ensures r != ""
    ensures Truthy(nameGuess) ==> r == nameGuess.value
  {
    if Truthy(nameGuess) then nameGuess.value else "application/octet-stream"
  }

  // ---------------------------------------------------------------- mention stripping

  /** The length of the leading run of characters satisfying IsDigit. */
  function DigitRun(s: string): (n: nat)
    ensures n <= |s|
    ensures forall i :: 0 <= i < n ==> IsDigit(s[i])
    ensures n < |s| ==> !IsDigit(s[n])
    decreases |s|
  {
    if s != [] && IsDigit(s[0]) then 1 + DigitRun(s[1..]) else 0
  }

  /** The length of the leading run of whitespace. */
  function SpaceRun(s: string): (n: nat)
    ensures n <= |s|
    ensures forall i :: 0 <= i < n ==> IsSpace(s[i])
    ensures n < |s| ==> !IsSpace(s[n])
    decreases |s|
  {
    if s != [] && IsSpace(s[0]) then 1 + SpaceRun(s[1..]) else 0
  }

  const MentionTag: string := "@_user_"

  /** The length of the mention placeholder `@_user_<digits><whitespace>` at the start of s, or 0
      when s does not start with one: the tag, then the longest run of digits (at least one),
      then the longest run of whitespace. */
  function MentionAt(s: string): (n: nat)
    ensures n <= |s|
    ensures n > 0 <==> StartsWith(s, MentionTag) && |s| > |MentionTag| && IsDigit(s[|MentionTag|])
    ensures n > 0 ==> n > |MentionTag| && forall i :: |MentionTag| <= i < n ==> IsDigit(s[i]) || IsSpace(s[i])
    ensures n > 0 ==> forall i, j :: |MentionTag| <= i < j < n && IsSpace(s[i]) ==> IsSpace(s[j])
    ensures 0 < n < |s| ==> !IsSpace(s[n]) && (IsDigit(s[n]) ==> IsSpace(s[n - 1]))
  {
    var t := |MentionTag|;
    if StartsWith(s, MentionTag) && DigitRun(s[t..]) > 0 then
      var d := DigitRun(s[t..]);
      var w := SpaceRun(s[t + d..]);
      MentionRuns(s, t, d, w);
      t + d + w
    else
      assert StartsWith(s, MentionTag) && |s| > t ==> s[t..][0] == s[t];
      0
  }

  /** Where the digit run and the whitespace run after the tag lie in s. */
  lemma MentionRuns(s: string, t: nat, d: nat, w: nat)
    requires t <= |s| && d == DigitRun(s[t..]) && d > 0 && w == SpaceRun(s[t + d..])
    ensures t + d + w <= |s|
    ensures forall i :: t <= i < t + d + w ==> IsDigit(s[i]) || IsSpace(s[i])
    ensures forall i, j :: t <= i < j < t + d + w && IsSpace(s[i]) ==> IsSpace(s[j])
    ensures t + d + w < |s| ==> !IsSpace(s[t + d + w]) && (IsDigit(s[t + d + w]) ==> IsSpace(s[t + d + w - 1]))
  {
    forall i | t <= i < t + d ensures IsDigit(s[i]) && !IsSpace(s[i]) {
      assert s[t..][i - t] == s[i];
    }
    forall i | t + d <= i < t + d + w ensures IsSpace(s[i]) {
      assert s[t + d..][i - t - d] == s[i];
    }
    if t + d + w < |s| {
      assert s[t + d..][w] == s[t + d + w];
      if w == 0 {
        assert s[t..][d] == s[t + d];
      }
    }
  }

  /** `_AT_BOT_PATTERN.sub("", s)`: scanning left to right, every mention placeholder is removed
      and the scan resumes after it. */
  function StripMentions(s: string): (r: string)
    ensures |r| <= |s|
    decreases |s|
  {
    if s == [] then []
    else if MentionAt(s) > 0 then StripMentions(s[MentionAt(s)..])
    else [s[0]] + StripMentions(s[1..])
  }

  /** Text without a mention tag is left as it is. */
  lemma {:induction false} NoMentionUnchanged(s: string)
    requires !Contains(s, MentionTag)
    ensures StripMentions(s) == s
    decreases |s|
  {
    if s != [] {
      NoMentionUnchanged(s[1..]);
    }
  }

  lemma {:induction false} DigitRunPrefix(d: string, rest: string)
    requires forall i :: 0 <= i < |d| ==> IsDigit(d[i])
    requires rest == [] || !IsDigit(rest[0])
    ensures DigitRun(d + rest) == |d|
    decreases |d|
  {
    if d != [] {
      assert (d + rest)[1..] == d[1..] + rest;
      DigitRunPrefix(d[1..], rest);
    }
  }

  lemma {:induction false} SpaceRunPrefix(w: string, rest: string)
    requires forall i :: 0 <= i < |w| ==> IsSpace(w[i])
    requires rest == [] || !IsSpace(rest[0])
    ensures SpaceRun(w + rest) == |w|
    decreases |w|
  {
    if w != [] {
      assert (w + rest)[1..] == w[1..] + rest;
      SpaceRunPrefix(w[1..], rest);
    }
  }

  lemma DropPrefix(a: string, b: string)
    ensures (a + b)[|a|..] == b && (a + b)[..|a|] == a
  {
  }

  /** The placeholder at the start of tag + digits + spaces + rest spans all but rest. */
  lemma {:induction false} MentionLength(d: string, w: string, rest: string)
    requires d != [] && forall i :: 0 <= i < |d| ==> IsDigit(d[i])
    requires forall i :: 0 <= i < |w| ==> IsSpace(w[i])
    requires rest == [] || !IsSpace(rest[0])
    requires w == [] ==> rest == [] || !IsDigit(rest[0])
    ensures MentionAt(MentionTag + (d + (w + rest))) == |MentionTag| + |d| + |w|
  {
    var tail := w + rest;
    var t := d + tail;
    DropPrefix(MentionTag, t);
    assert tail == [] || !IsDigit(tail[0]);
    DigitRunPrefix(d, tail);
    DropPrefix(d, tail);
    SpaceRunPrefix(w, rest);
  }

  /** A whole placeholder, with all its digits and the whitespace after it, is removed. */
  lemma MentionIsRemoved(d: string, w: string, rest: string)
    requires d != [] && forall i :: 0 <= i < |d| ==> IsDigit(d[i])
    requires forall i :: 0 <= i < |w| ==> IsSpace(w[i])
    requires rest == [] || !IsSpace(rest[0])
    requires w == [] ==> rest == [] || !IsDigit(rest[0])
    ensures StripMentions(MentionTag + (d + (w + rest))) == StripMentions(rest)
  {
    var s := MentionTag + (d + (w + rest));
    MentionLength(d, w, rest);
    assert s[MentionAt(s)..] == rest;
  }

  /** Text with no '@' in it passes through untouched, whatever follows it. */
  lemma {:induction false} StripPlainPrefix(p: string, x: string)
    requires '@' !in p
    ensures StripMentions(p + x) == p + StripMentions(x)
    decreases |p|
  {
    if p != [] {
      var s := p + x;
      assert s[0] == p[0] != '@' && s[1..] == p[1..] + x;
      assert !StartsWith(s, MentionTag) by {
        assert MentionTag[0] == '@';
      }
      StripPlainPrefix(p[1..], x);
      assert p == [p[0]] + p[1..];
    } else {
      assert p + x == x;
    }
  }

  /** A placeholder in the middle of the text goes, with its digits and trailing whitespace, and
      the text around it stays. */
  lemma MentionInsideRemoved(p: string, d: string, w: string, rest: string)
    requires '@' !in p
    requires d != [] && forall i :: 0 <= i < |d| ==> IsDigit(d[i])
    requires forall i :: 0 <= i < |w| ==> IsSpace(w[i])
    requires rest == [] || !IsSpace(rest[0])
    requires w == [] ==> rest == [] || !IsDigit(rest[0])
    ensures StripMentions(p + (MentionTag + (d + (w + rest)))) == p + StripMentions(rest)
  {
    StripPlainPrefix(p, MentionTag + (d + (w + rest)));
    MentionIsRemoved(d, w, rest);
  }

  // ---------------------------------------------------------------- the adapter

  /** A message event as delivered: content is the decoded JSON object, None when the content did
      not parse. */
  datatype MessageEvent = MessageEvent(
    messageType: string,
    chatId: string,
    openId: string,
    messageId: string,
    chatType: string,
    content: Option<map<string, string>>)

  function Get(m: map<string, string>, key: string, default: string): string
  {
    if key in m then m[key] else default
  }

  predicate Supported(messageType: string)
  {
    messageType == "text" || messageType == "image" || messageType == "file"
  }

  /** The text the agent sees: group text without mention placeholders and trimmed, other text as
      sent, and "" for non-text messages. */
  function MessageText(ev: MessageEvent): string
    requires ev.content.Some?
  {
    if ev.messageType != "text" then ""
    else
      var text := Get(ev.content.value, "text", "");
      if ev.chatType == "group" then Strip(StripMentions(text)) else text
  }

  /** The content key naming the attachment of an image or file message. */
  function AttachmentKey(ev: MessageEvent): string
    requires ev.content.Some?
  {
    if ev.messageType == "image" then Get(ev.content.value, "image_key", "")
    else if ev.messageType == "file" then Get(ev.content.value, "file_key", "")
    else ""
  }

  /** A downloaded image: named after its key with a .png extension, typed by name or by bytes. */
  function ImageAttachment(imageKey: string, bytes: seq<byte>, guess: NameGuess): Attachment
  {
    Attachment(AttachImage, Some(imageKey + ".png"), bytes, GuessImageMime(guess(imageKey + ".png"), bytes), imageKey)
  }

  /** A downloaded file: it keeps the name the message gave. */
  function FileAttachment(fileKey: string, fileName: string, bytes: seq<byte>, guess: NameGuess): Attachment
  {
    Attachment(AttachFile, Some(fileName), bytes, GuessMimeType(guess(fileName)), fileKey)
  }

  /** The attachment a message brings along: none for text, a missing key, no client, a failed
      download or one over the size cap. */
  function EventAttachment(ev: MessageEvent, client: bool, fetched: Option<seq<byte>>, guess: NameGuess): Option<Attachment>
    requires ev.content.Some?
  {
    var key := AttachmentKey(ev);
    if key == "" || !client || fetched.None? || |fetched.value| > MaxAttachmentSize then None
    else if ev.messageType == "image" then Some(ImageAttachment(key, fetched.value, guess))
    else Some(FileAttachment(key, Get(ev.content.value, "file_name", "attachment"), fetched.value, guess))
  }

  class FeishuAdapter {
    const channelId: string
    var stopped: bool
    /** whether the REST client exists (set by start, dropped by stop) */
    var apiClient: bool
    /** whether the main event loop is captured and open */
    var loopOpen: bool

    constructor(channelId: string)
      ensures this.channelId == channelId
      ensures !stopped && !apiClient && !loopOpen
    {
      this.channelId := channelId;
      stopped, apiClient, loopOpen := false, false, false;
    }

    /** start: clears the stopped flag, captures the event loop and builds the REST client. */
    method Start()
      modifies this
      ensures !stopped && apiClient && loopOpen
    {
      if stopped {
        stopped := false;
      }
      loopOpen := true;
      apiClient := true;
    }

    /** stop: sets the stopped flag and drops the client and the loop. */
    method Stop()
      modifies this
      ensures stopped && !apiClient && !loopOpen
    {
      stopped := true;
      apiClient := false;
      loopOpen := false;
    }

    /** _download_image: fails without a client, when the request failed or when the image is over
        the size cap; the image is named after its key with a .png extension. */
    method DownloadImage(imageKey: string, fetched: Option<seq<byte>>, guess: NameGuess)
      returns (a: Option<Attachment>)
      ensures a.Some? <==> apiClient && fetched.Some? && |fetched.value| <= MaxAttachmentSize
      ensures a.Some? ==> a.value == ImageAttachment(imageKey, fetched.value, guess)
      ensures a.Some? ==> a.value.fileName == Some(imageKey + ".png") && a.value.data == fetched.value
    {
      if !apiClient || fetched.None? {
        return None;
      }
      var bytes := fetched.value;
      if |bytes| > MaxAttachmentSize {
        return None;
      }
      var name := imageKey + ".png";
      a := Some(Attachment(AttachImage, Some(name), bytes, GuessImageMime(guess(name), bytes), imageKey));
    }

    /** _download_file: the same failures; the file keeps the name the message gave. */
    method DownloadFile(fileKey: string, fileName: string, fetched: Option<seq<byte>>, guess: NameGuess)
      returns (a: Option<Attachment>)
      ensures a.Some? <==> apiClient && fetched.Some? && |fetched.value| <= MaxAttachmentSize
      ensures a.Some? ==> a.value == FileAttachment(fileKey, fileName, fetched.value, guess)
      ensures a.Some? ==> a.value.fileName == Some(fileName) && a.value.data == fetched.value
    {
      if !apiClient || fetched.None? {
        return None;
      }
      var bytes := fetched.value;
      if |bytes| > MaxAttachmentSize {
        return None;
      }
      a := Some(Attachment(AttachFile, Some(fileName), bytes, GuessMimeType(guess(fileName)), fileKey));
    }

    /** _handle_message_event: the message handed to the gateway, if any. fetched is the outcome of
        the download request for the message's image or file. */
    method HandleMessageEvent(ev: MessageEvent, fetched: Option<seq<byte>>, guess: NameGuess)
      returns (msg: Option<InboundMessage>)
      ensures stopped || !Supported(ev.messageType) || ev.content.None? || !loopOpen ==> msg.None?
      ensures msg.Some? ==>
                var m := msg.value;
                m.channelId == channelId && m.chatId == ev.chatId && m.senderId == ev.openId
                && m.messageId == Some(ev.messageId) && m.chatType == ev.chatType
                && m.messageType == ev.messageType
      ensures msg.Some? ==> msg.value.text != "" || msg.value.attachments != []
      ensures msg.Some? ==> msg.value.text == MessageText(ev)
      ensures msg.Some? ==> forall i :: 0 <= i < |msg.value.attachments| ==>
                              |msg.value.attachments[i].data| <= MaxAttachmentSize
      ensures msg.Some? ==> |msg.value.attachments| <= 1
      ensures msg.Some? ==>
                msg.value.attachments == match EventAttachment(ev, apiClient, fetched, guess)
                                         case Some(a) => [a]
                                         case None => []
      ensures !stopped && Supported(ev.messageType) && ev.content.Some? && loopOpen ==>
                (msg.Some? <==>
                   MessageText(ev) != ""
                   || (AttachmentKey(ev) != "" && apiClient && fetched.Some?
                       && |fetched.value| <= MaxAttachmentSize))
    {
      if stopped {
        return None;
      }
      if !Supported(ev.messageType) || ev.content.None? {
        return None;
      }
      var content := ev.content.value;
      var text := "";
      var attachments: seq<Attachment> := [];
      if ev.messageType == "text" {
        text := Get(content, "text", "");
        if ev.chatType == "group" {
          text := Strip(StripMentions(text));
        }
      } else if ev.messageType == "image" {
        var imageKey := Get(content, "image_key", "");
        if imageKey != "" {
          var a := DownloadImage(imageKey, fetched, guess);
          if a.Some? {
            attachments := attachments + [a.value];
          }
        }
      } else {
        var fileKey := Get(content, "file_key", "");
        var fileName := Get(content, "file_name", "attachment");
        if fileKey != "" {
          var a := DownloadFile(fileKey, fileName, fetched, guess);
          if a.Some? {
            attachments := attachments + [a.value];
          }
        }
      }
      if text == "" && attachments == [] {
        return None;
      }
      if !loopOpen {
        return None;
      }
      msg := Some(InboundMessage(channelId, ev.chatId, ev.openId, Some(ev.messageId), text, attachments,
                                 ev.chatType, ev.messageType));
    }
  }

  /** A group message holding only a mention placeholder is dropped as empty. */
  lemma MentionOnlyGroupMessageIsEmpty(ev: MessageEvent, d: string)
    requires ev.messageType == "text" && ev.chatType == "group" && ev.content.Some?
    requires d != [] && forall i :: 0 <= i < |d| ==> IsDigit(d[i])
    requires Get(ev.content.value, "text", "") == MentionTag + d
    ensures MessageText(ev) == ""
  {
    MentionIsRemoved(d, "", "");
    assert d + ("" + "") == d;
  }

  /** Direct-message text reaches the agent exactly as sent. */
  lemma DirectTextUnchanged(ev: MessageEvent)
    requires ev.messageType == "text" && ev.chatType != "group" && ev.content.Some?
    ensures MessageText(ev) == Get(ev.content.value, "text", "")
  {
  }
}

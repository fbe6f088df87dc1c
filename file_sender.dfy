// The send_file tool an agent uses to send a workspace file back to the
// chat it serves: classification of the file by extension, the order in
// which the request is validated, and the Feishu delivery steps. The file
// system (the resolved path and what is there), the environment and the
// platform's responses are inputs.

module FileSender {
  import opened Text

  const ImageExtensions: set<string> := {".png", ".jpg", ".jpeg", ".gif", ".webp", ".bmp"}

  const FileTypes: map<string, string> :=
    map[".pdf" := "pdf", ".doc" := "doc", ".docx" := "doc", ".xls" := "xls", ".xlsx" := "xls",
        ".ppt" := "ppt", ".pptx" := "ppt"]

  const MaxImageSize: nat := 10 * 1024 * 1024
  const MaxFileSize: nat := 30 * 1024 * 1024

  /** The final component of a resolved path. */
  function FileName(path: string): string
  {
    LastSegment(path, '/')
  }

  /** The lowercased extension of the file a path names. */
  function Extension(path: string): (e: string)
    ensures e == [] || e[0] == '.'
  {
    Lower(Suffix(FileName(path)))
  }

  /** _is_image: the extension is one of the image extensions, in any case. */
  predicate IsImage(path: string)
  {
    Extension(path) in ImageExtensions
  }

  /** _feishu_file_type: the upload type for a non-image file. */
  function FeishuFileType(path: string): (t: string)
    ensures t in {"pdf", "doc", "xls", "ppt", "stream"}
    ensures Extension(path) !in FileTypes ==> t == "stream"
  {
    var e := Extension(path);
    if e in FileTypes then FileTypes[e] else "stream"
  }

  /** An upper-case extension is classified like its lower-case form. */
  lemma ExtensionCaseIgnored(dir: string, stem: string, ext: string)
    requires '/' !in stem && '/' !in ext && '.' !in stem && '.' !in ext
    requires stem != [] && ext != []
    ensures IsImage(dir + "/" + stem + "." + ext) == (Lower("." + ext) in ImageExtensions)
    ensures FeishuFileType(dir + "/" + stem + "." + ext)
            == (if Lower("." + ext) in FileTypes then FileTypes[Lower("." + ext)] else "stream")
  {
    var name := stem + "." + ext;
    LastSegmentAfter(dir, name, '/');
    assert dir + "/" + stem + "." + ext == dir + [ '/' ] + name;
    SuffixAfter(stem, ext);
  }

  /** The suffix of stem.ext, for a stem and an extension without dots, is .ext. */
  lemma SuffixAfter(stem: string, ext: string)
    requires stem != [] && ext != [] && '.' !in stem && '.' !in ext
    ensures Suffix(stem + "." + ext) == "." + ext
  {
    var name := stem + "." + ext;
    var a := AfterLast(name, '.');
    assert name[|stem|] == '.';
    assert name[|stem|..] == "." + ext;
  }

  // ---------------------------------------------------------------- workspace containment

  /** The containment test: the path is the root itself or lies below root + "/". */
  predicate WithinWorkspace(path: string, root: string)
  {
    StartsWith(path, root + "/") || path == root
  }

  /** A path that only shares a textual prefix with the root, such as a sibling directory whose
      name extends the root's, is outside. */
  lemma SiblingIsOutside(root: string, rest: string)
    requires rest != [] && rest[0] != '/'
    ensures !WithinWorkspace(root + rest, root)
  {
    var p := root + rest;
    assert p[..|root| + 1][|root|] == rest[0];
    assert (root + "/")[|root|] == '/';
  }

  /** Everything below the root is inside. */
  lemma BelowRootIsInside(root: string, rest: string)
    ensures WithinWorkspace(root + "/" + rest, root)
  {
    assert (root + "/" + rest)[..|root| + 1] == root + "/";
  }

  /** With "/" as the workspace, only "/" itself passes, because the test looks for "//". */
  lemma SlashRootAdmitsOnlyItself(rest: string)
    requires rest != [] && rest[0] != '/'
    ensures !WithinWorkspace("/" + rest, "/")
  {
    SiblingIsOutside("/", rest);
  }

  // ---------------------------------------------------------------- validation order

  /** What is at a resolved path. */
  datatype FileInfo = Missing | NotRegular | Regular(size: nat)

  /** The environment the tool runs in; an unset variable is "". */
  datatype Env = Env(workspace: string, channelType: string, appId: string, appSecret: string,
                     chatId: string, replyTo: string)

  /** A response of the platform's REST API. */
  datatype Response = Success(key: string) | Failure(code: string, msg: string)

  /** The platform's responses to the requests of one delivery, in the order they are made. */
  datatype Network = Network(larkInstalled: bool, upload: Response, send: Response, text: Response)

  /** The outcome of send_file: one error per failed check, or the delivery's report. */
  datatype Outcome =
    | OutsideWorkspace(workspace: string)
    | NotFound(requested: string)
    | NotAFile(requested: string)
    | ImageTooLarge(name: string, size: nat)
    | FileTooLarge(name: string, size: nat)
    | UnsupportedChannel(channelType: string)
    | Delivered(report: string)

  /** The size limit the file is held to. */
  function SizeLimit(path: string): nat
  {
    if IsImage(path) then MaxImageSize else MaxFileSize
  }

  /** send_file: workspace containment, existence, regularity, size and channel type are checked
      in that order; the first that fails decides the outcome. resolved and root are the resolved
      request path and workspace. */
  function SendFile(requested: string, resolved: string, root: string, env: Env, info: FileInfo,
                    message: string, net: Network): (o: Outcome)
    ensures env.workspace != "" && !WithinWorkspace(resolved, root) ==> o == OutsideWorkspace(env.workspace)
    ensures o.NotFound? <==> (env.workspace == "" || WithinWorkspace(resolved, root)) && info.Missing?
    ensures o.NotAFile? <==> (env.workspace == "" || WithinWorkspace(resolved, root)) && info.NotRegular?
    ensures (o.ImageTooLarge? || o.FileTooLarge?) <==>
              (env.workspace == "" || WithinWorkspace(resolved, root)) && info.Regular?
              && info.size > SizeLimit(resolved)
    ensures o.UnsupportedChannel? ==> env.channelType != "feishu"
    ensures o.Delivered? <==>
              (env.workspace == "" || WithinWorkspace(resolved, root)) && info.Regular?
              && info.size <= SizeLimit(resolved) && env.channelType == "feishu"
  {
    if env.workspace != "" && !WithinWorkspace(resolved, root) then OutsideWorkspace(env.workspace)
    else if info.Missing? then NotFound(requested)
    else if info.NotRegular? then NotAFile(requested)
    else if IsImage(resolved) && info.size > MaxImageSize then ImageTooLarge(FileName(resolved), info.size)
    else if !IsImage(resolved) && info.size > MaxFileSize then FileTooLarge(FileName(resolved), info.size)
    else if env.channelType == "feishu" then Delivered(SendViaFeishu(resolved, message, env, net))
    else UnsupportedChannel(env.channelType)
  }

  /** A file exactly at its limit is accepted. */
  lemma SizeAtLimitAccepted(requested: string, resolved: string, root: string, env: Env, message: string, net: Network)
    requires env.workspace == "" || WithinWorkspace(resolved, root)
    requires env.channelType == "feishu"
    ensures SendFile(requested, resolved, root, env, Regular(SizeLimit(resolved)), message, net).Delivered?
  {
  }

  /** One byte over the limit is refused, as an image or as a file according to the path. */
  lemma SizeOverLimitRejected(requested: string, resolved: string, root: string, env: Env, message: string, net: Network)
    requires env.workspace == "" || WithinWorkspace(resolved, root)
    ensures SendFile(requested, resolved, root, env, Regular(SizeLimit(resolved) + 1), message, net)
            == if IsImage(resolved) then ImageTooLarge(FileName(resolved), MaxImageSize + 1)
               else FileTooLarge(FileName(resolved), MaxFileSize + 1)
  {
  }

  /** The limit follows the kind of file: a size between the two limits is refused for a name
      with an image extension, in any case, and goes through for any other name. */
  lemma LimitFollowsKind(requested: string, dir: string, stem: string, ext: string, root: string, env: Env,
                         size: nat, message: string, net: Network)
    requires '/' !in stem && '/' !in ext && '.' !in stem && '.' !in ext
    requires stem != [] && ext != []
    requires env.workspace == "" || WithinWorkspace(dir + "/" + stem + "." + ext, root)
    requires env.channelType == "feishu"
    requires MaxImageSize < size <= MaxFileSize
    ensures var o := SendFile(requested, dir + "/" + stem + "." + ext, root, env, Regular(size), message, net);
            if Lower("." + ext) in ImageExtensions then o == ImageTooLarge(stem + "." + ext, size)
            else o.Delivered?
  {
    var path, name := dir + "/" + stem + "." + ext, stem + "." + ext;
    assert IsImage(path) == (Lower("." + ext) in ImageExtensions) by {
      ExtensionCaseIgnored(dir, stem, ext);
    }
    assert FileName(path) == name by {
      NameOfPath(dir, name);
      assert path == dir + "/" + name;
    }
    BetweenLimits(requested, path, root, env, size, message, net);
  }

  /** Between the two limits only the kind of file decides. */
  lemma BetweenLimits(requested: string, resolved: string, root: string, env: Env, size: nat, message: string,
                      net: Network)
    requires env.workspace == "" || WithinWorkspace(resolved, root)
    requires env.channelType == "feishu"
    requires MaxImageSize < size <= MaxFileSize
    ensures var o := SendFile(requested, resolved, root, env, Regular(size), message, net);
            if IsImage(resolved) then o == ImageTooLarge(FileName(resolved), size) else o.Delivered?
  {
  }

  lemma NameOfPath(dir: string, name: string)
    requires '/' !in name
    ensures FileName(dir + "/" + name) == name
  {
    LastSegmentAfter(dir, name, '/');
    assert dir + "/" + name == dir + ['/'] + name;
  }

  // ---------------------------------------------------------------- Feishu delivery

  const MissingCredentials: string := "Error: FEISHU_APP_ID and FEISHU_APP_SECRET are required."
  const MissingChat: string := "Error: CHAT_ID is required."

  /** The message type sent for a file: images inline, everything else as a file. */
  function MessageType(path: string): (t: string)
    ensures t == "image" <==> IsImage(path)
    ensures t == "image" || t == "file"
  {
    if IsImage(path) then "image" else "file"
  }

  /** _send_via_feishu: credentials and chat are checked before anything is uploaded; then the
      upload, the file or image message and the optional accompanying text. */
  function SendViaFeishu(path: string, message: string, env: Env, net: Network): (r: string)
    ensures !net.larkInstalled ==> r == "Error: lark_oapi is not installed. Cannot send files via Feishu."
    ensures net.larkInstalled && (env.appId == "" || env.appSecret == "") ==> r == MissingCredentials
    ensures net.larkInstalled && env.appId != "" && env.appSecret != "" && env.chatId == "" ==> r == MissingChat
  {
    if !net.larkInstalled then "Error: lark_oapi is not installed. Cannot send files via Feishu."
    else if env.appId == "" || env.appSecret == "" then MissingCredentials
    else if env.chatId == "" then MissingChat
    else
      var kind := MessageType(path);
      match net.upload
      case Failure(code, msg) =>
        "Error uploading " + kind + ": " + code + " - " + msg
      case Success(_) =>
        match net.send
        case Failure(code, msg) => "Error sending " + kind + " message: " + code + " - " + msg
        case Success(_) =>
          var report := "Successfully sent " + kind + " '" + FileName(path) + "' to the chat.";
          if message != "" && net.text.Failure? then
            report + " (Warning: accompanying text message failed: " + net.text.code + " - " + net.text.msg + ")"
          else report
  }

  /** How a message reaches the chat: as a reply when a message to reply to is configured,
      otherwise as a new message to the chat. */
  datatype Delivery = Reply(messageId: string) | Create(chatId: string)

  function DeliveryOf(env: Env): (d: Delivery)
    ensures d.Reply? <==> env.replyTo != ""
  {
    if env.replyTo != "" then Reply(env.replyTo) else Create(env.chatId)
  }

  /** The upload request: an image upload for images, otherwise a file upload with its
      platform file type and name. */
  datatype UploadRequest = ImageUpload | FileUpload(fileType: string, fileName: string)

  function UploadOf(path: string): (u: UploadRequest)
    ensures u.ImageUpload? <==> IsImage(path)
  {
    if IsImage(path) then ImageUpload else FileUpload(FeishuFileType(path), FileName(path))
  }

  /** A failed accompanying text does not turn a delivered file into an error. */
  lemma TextFailureOnlyWarns(path: string, message: string, env: Env, net: Network)
    requires net.larkInstalled && env.appId != "" && env.appSecret != "" && env.chatId != ""
    requires net.upload.Success? && net.send.Success?
    ensures StartsWith(SendViaFeishu(path, message, env, net), "Successfully sent ")
  {
    var r := SendViaFeishu(path, message, env, net);
    var kind := MessageType(path);
    var report := "Successfully sent " + kind + " '" + FileName(path) + "' to the chat.";
    assert report[..|"Successfully sent "|] == "Successfully sent ";
    if message != "" && net.text.Failure? {
      var w := " (Warning: accompanying text message failed: " + net.text.code + " - " + net.text.msg + ")";
      assert r == report + w;
      assert (report + w)[..|"Successfully sent "|] == report[..|"Successfully sent "|];
    }
  }
}

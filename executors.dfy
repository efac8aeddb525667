/** The per-tier executor of core/executors.py: it renames or compresses the
    downloaded file, uploads it and, in button mode, builds the deep-link button
    that points at the uploaded message; its background continuation removes the
    working files once a message id is known.

    Every call into code the model does not contain (`AnimeInfo.rename`,
    `cover_dl`, `rename_file`, `compress`, `upload_anime`, `get_me`,
    `get_messages`) is an input: whether it raised, and what it returned. The
    local disk is a set of paths. */
module Executors {
  import opened Common

  /** The two switches `execute` reads from its configuration. */
  datatype Config = Config(originalUpload: bool, buttonUpload: bool)

  /** `Button.url(text, url)`. */
  datatype Button = UrlButton(text: string, url: string)

  /** The second component of what `execute` returns: the button, the empty
      list, the detail a failed preparation step handed back, or a traceback. */
  datatype Payload = ButtonPayload(button: Button) | NoButton | Detail(text: string) | Traceback

  /** The arguments of the `upload_anime` call that returned. */
  datatype Upload = Upload(file: string, name: string, thumb: string, asButton: bool)

  /** What the outside calls made by `execute` do. */
  datatype ExecEnv = ExecEnv(
    renamed: Call<string>,           // AnimeInfo.rename(is_original)
    thumb: Call<Option<string>>,     // cover_dl(get_poster())
    prepared: Call<(bool, string)>,  // rename_file or compress: success flag and detail / new status message
    uploaded: Call<nat>,             // upload_anime: the id of the uploaded message
    botUsername: Call<string>,       // get_me().username
    resolution: Option<string>)      // anime_info.data.get("video_resolution")

  /** What one run of `execute` produces: its result pair and the values it
      assigned (`None`: not assigned). */
  datatype Execution = Execution(ok: bool, payload: Payload, outputFile: Option<string>, msgId: Option<nat>,
                                 reporterMsg: Option<string>, upload: Option<Upload>)

  function OutputPath(rename: string): string
  {
    "encode/" + rename
  }

  /** `thumb or "thumb.jpg"`. */
  function ThumbOrDefault(thumb: Option<string>): string
  {
    if thumb.Some? && thumb.value != "" then thumb.value else "thumb.jpg"
  }

  /** `f"{resolution}"`: a missing resolution is printed as `None`. */
  function ResolutionLabel(resolution: Option<string>): string
  {
    if resolution.Some? then resolution.value else "None"
  }

  /** The link that opens the bot with the message id as its start parameter. */
  function DeepLink(username: string, id: nat): (r: string)
    ensures StartsWith(r, "https://t.me/" + username + "?start=")
    ensures |Decimal(id)| <= |r| && r[|r| - |Decimal(id)|..] == Decimal(id)
    ensures |r| == |"https://t.me/" + username + "?start="| + |Decimal(id)|
  {
    "https://t.me/" + username + "?start=" + Decimal(id)
  }

  /** One run of `execute`, lines 38-78. */
  function Exec(cfg: Config, env: ExecEnv): (r: Execution)
    // the message id is assigned exactly when the run reports success
    ensures r.ok <==> r.msgId.Some?
    // the output path is `encode/<rename>`, assigned before anything can fail after the rename
    ensures r.outputFile == (if env.renamed.Returned? then Some(OutputPath(env.renamed.value)) else None)
    // a preparation step that reports failure ends the run with its detail, before any upload
    ensures env.renamed.Returned? && env.thumb.Returned? && env.prepared.Returned? && !env.prepared.value.0 ==>
      !r.ok && r.payload == Detail(env.prepared.value.1) && r.upload.None? && r.reporterMsg.None?
    // only a successful compression replaces the status message, with the one it returned
    ensures r.reporterMsg.Some? <==>
      !cfg.originalUpload && env.renamed.Returned? && env.thumb.Returned? && env.prepared.Returned? && env.prepared.value.0
    ensures r.reporterMsg.Some? ==> r.reporterMsg.value == env.prepared.value.1
    // an upload happens only after a successful preparation, of the output file
    ensures r.upload.Some? ==>
      && env.renamed.Returned? && env.thumb.Returned? && env.prepared.Returned? && env.prepared.value.0
      && env.uploaded.Returned?
      && r.upload.value == Upload(OutputPath(env.renamed.value), env.renamed.value, ThumbOrDefault(env.thumb.value), cfg.buttonUpload)
    ensures r.ok ==> r.upload.Some? && r.msgId == Some(env.uploaded.value)
    // every call returning and the preparation succeeding means an upload, and
    // success exactly unless get_me raises in button mode
    ensures env.renamed.Returned? && env.thumb.Returned? && env.prepared.Returned? && env.prepared.value.0 && env.uploaded.Returned? ==>
      r.upload.Some? && (r.ok <==> !cfg.buttonUpload || env.botUsername.Returned?)
    // in button mode success yields the deep-link button, otherwise the empty list
    ensures r.ok && cfg.buttonUpload ==>
      env.botUsername.Returned? &&
      r.payload == ButtonPayload(UrlButton(ResolutionLabel(env.resolution), DeepLink(env.botUsername.value, env.uploaded.value)))
    ensures r.ok && !cfg.buttonUpload ==> r.payload == NoButton
    ensures !r.ok ==> r.payload.Detail? || r.payload.Traceback?
    // only a preparation step reporting failure yields a detail; every raise yields the traceback
    ensures r.payload.Detail? <==>
      env.renamed.Returned? && env.thumb.Returned? && env.prepared.Returned? && !env.prepared.value.0
    // a file that was uploaded but not reported can only come from get_me raising in button mode
    ensures r.upload.Some? && !r.ok ==> cfg.buttonUpload && env.botUsername.Raised?
  {
    match env.renamed
    case Raised => Execution(false, Traceback, None, None, None, None)
    case Returned(rename) =>
      var out := Some(OutputPath(rename));
      if env.thumb.Raised? then Execution(false, Traceback, out, None, None, None)
      else if env.prepared.Raised? then Execution(false, Traceback, out, None, None, None)
      else if !env.prepared.value.0 then Execution(false, Detail(env.prepared.value.1), out, None, None, None)
      else
        var newMsg := if cfg.originalUpload then None else Some(env.prepared.value.1);
        if env.uploaded.Raised? then Execution(false, Traceback, out, None, newMsg, None)
        else
          var id := env.uploaded.value;
          var up := Some(Upload(out.value, rename, ThumbOrDefault(env.thumb.value), cfg.buttonUpload));
          if !cfg.buttonUpload then Execution(true, NoButton, out, Some(id), newMsg, up)
          else if env.botUsername.Raised? then Execution(false, Traceback, out, None, newMsg, up)
          else
            var btn := UrlButton(ResolutionLabel(env.resolution), DeepLink(env.botUsername.value, id));
            Execution(true, ButtonPayload(btn), out, Some(id), newMsg, up)
  }

  /** The files `further_work` leaves behind: it removes the input and then the
      output, and a removal that raises (the path is not there) ends the cleanup. */
  function Cleanup(files: set<string>, input: string, output: Option<string>): (r: set<string>)
    ensures r <= files
    ensures files - r <= {input} + (if output.Some? then {output.value} else {})
    ensures input in files ==> input !in r
    ensures input !in files ==> r == files
    ensures input in files && output.Some? && output.value in files && output.value != input ==>
      r == files - {input, output.value}
  {
    if input !in files then files
    else
      var rest := files - {input};
      if output.Some? && output.value in rest then rest - {output.value} else rest
  }

  /** The status reporter of one file; only its current message is modelled. */
  class Reporter {
    var msg: string

    constructor(msg: string)
      ensures this.msg == msg
    {
      this.msg := msg;
    }
  }

  class Executor {
    const isOriginal: bool
    const isButton: bool
    const inputFile: string
    const reporter: Reporter
    var msgId: Option<nat>
    var outputFile: Option<string>
    /** The arguments `upload_anime` was called with; the source keeps no such field. */
    ghost var upload: Option<Upload>

    /** A message id is only ever known together with an output file and an upload. */
    ghost predicate Valid()
      reads this
    {
      msgId.Some? ==> outputFile.Some? && upload.Some?
    }

    /** `Executors.__init__`. */
    constructor(cfg: Config, inputFile: string, reporter: Reporter)
      ensures isOriginal == cfg.originalUpload && isButton == cfg.buttonUpload
      ensures this.inputFile == inputFile && this.reporter == reporter
      ensures msgId.None? && outputFile.None? && upload.None?
      ensures Valid()
    {
      isOriginal := cfg.originalUpload;
      isButton := cfg.buttonUpload;
      this.inputFile := inputFile;
      this.reporter := reporter;
      msgId := None;
      outputFile := None;
      upload := None;
    }

    /** `execute`: prepare, upload, and report the outcome. */
    method Execute(env: ExecEnv) returns (ok: bool, payload: Payload)
      requires Valid()
      modifies this, reporter
      ensures Valid()
      ensures var x := Exec(Config(isOriginal, isButton), env);
        && ok == x.ok && payload == x.payload
        && outputFile == (if x.outputFile.Some? then x.outputFile else old(outputFile))
        && msgId == (if x.msgId.Some? then x.msgId else old(msgId))
        && upload == (if x.upload.Some? then x.upload else old(upload))
        && reporter.msg == (if x.reporterMsg.Some? then x.reporterMsg.value else old(reporter.msg))
      ensures old(msgId).None? ==> (ok <==> msgId.Some?)
    {
      if env.renamed.Raised? {
        return false, Traceback;
      }
      var rename := env.renamed.value;
      outputFile := Some(OutputPath(rename));
      if env.thumb.Raised? {
        return false, Traceback;
      }
      var thumb := env.thumb.value;
      if env.prepared.Raised? {
        return false, Traceback;
      }
      var (succ, detail) := env.prepared.value;
      if isOriginal {
        // rename_file(input_file, output_file)
        if !succ {
          return false, Detail(detail);
        }
      } else {
        // compress(input_file, output_file, log message)
        if !succ {
          return false, Detail(detail);
        }
        reporter.msg := detail;
      }
      if env.uploaded.Raised? {
        return false, Traceback;
      }
      var id := env.uploaded.value;
      upload := Some(Upload(outputFile.value, rename, ThumbOrDefault(thumb), isButton));
      if isButton {
        if env.botUsername.Raised? {
          return false, Traceback;
        }
        var btn := UrlButton(ResolutionLabel(env.resolution), DeepLink(env.botUsername.value, id));
        msgId := Some(id);
        return true, ButtonPayload(btn);
      }
      msgId := Some(id);
      return true, NoButton;
    }

    /** `if self.msg_id:` — an id of 0 counts as unset, as in Python. */
    predicate HasMsgId()
      reads this
      ensures HasMsgId() ==> msgId.Some? && msgId.value > 0
      ensures HasMsgId() && Valid() ==> outputFile.Some?
    {
      msgId.Some? && msgId.value != 0
    }

    /** `further_work`, lines 83-105: `fetched` says whether the status updates
        and `get_messages` before the cleanup returned without raising. */
    method FurtherWork(files: set<string>, fetched: bool) returns (after: set<string>)
      requires Valid()
      ensures !HasMsgId() ==> after == files
      ensures HasMsgId() && !fetched ==> after == files
      ensures HasMsgId() && fetched ==> after == Cleanup(files, inputFile, outputFile)
      // after a successful upload both working files go, when both are on disk
      ensures HasMsgId() && fetched && inputFile in files && outputFile.value in files && outputFile.value != inputFile ==>
        after == files - {inputFile, outputFile.value}
    {
      after := files;
      if HasMsgId() {
        if !fetched {
          return;
        }
        if inputFile !in after {
          return;
        }
        after := after - {inputFile};
        if outputFile.None? || outputFile.value !in after {
          return;
        }
        after := after - {outputFile.value};
      }
    }
  }

  /** After a run that reported success, the cleanup removes exactly the
      downloaded file and the output file, when both are on disk. */
  lemma CleanupAfterSuccess(cfg: Config, env: ExecEnv, input: string, files: set<string>)
    requires Exec(cfg, env).ok
    requires input in files && OutputPath(env.renamed.value) in files
    requires input != OutputPath(env.renamed.value)
    ensures Cleanup(files, input, Exec(cfg, env).outputFile) == files - {input, OutputPath(env.renamed.value)}
  {
  }
}

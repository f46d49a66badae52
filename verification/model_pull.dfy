/** The admin model-management page: the download of a model as a stream of
    newline-delimited JSON progress objects, the check whether a suggested
    model is already installed, and the model list and delete actions. */
module ModelManagement {
  import opened Common

  /** An installed model, as the model runtime lists it. */
  datatype InstalledModel = InstalledModel(name: string, size: nat, digest: string, modifiedAt: string)

  /** `models.some(m => m.name === n || m.name.startsWith(n + ':'))`: a name
      is installed when it is listed as is or with some tag after a colon. */
  function IsModelInstalled(models: seq<InstalledModel>, name: string): (b: bool)
    ensures b <==> exists i :: 0 <= i < |models| &&
                      (models[i].name == name || StartsWith(models[i].name, name + ":"))
    decreases |models|
  {
    if models == [] then false
    else
      var m := models[0];
      assert forall i :: 1 <= i < |models| ==> models[1..][i - 1] == models[i];
      m.name == name || StartsWith(m.name, name + ":") || IsModelInstalled(models[1..], name)
  }

  /** A tagged name counts as installed for its bare name, but a name that
      merely starts with the bare name does not. */
  lemma TagMatching()
    ensures IsModelInstalled([InstalledModel("phi3:latest", 0, "", "")], "phi3")
    ensures !IsModelInstalled([InstalledModel("llama3.2", 0, "", "")], "llama3")
  {
    assert StartsWith("phi3:latest", "phi3" + ":");
    assert !StartsWith("llama3.2", "llama3" + ":") by {
      assert "llama3.2"[..7] != "llama3:" by { assert "llama3.2"[6] == '.'; }
    }
  }

  const LineFeed: char := '\n'

  /** All the text received: the chunks in order. */
  function Concat(chunks: seq<string>): string
  {
    if chunks == [] then "" else Concat(chunks[..|chunks| - 1]) + chunks[|chunks| - 1]
  }

  // ---- Progress ----

  /** A parsed progress object; absent fields are None. */
  datatype PullMessage = PullMessage(status: Option<string>, completed: Option<nat>, total: Option<nat>)

  /** The progress shown while a model downloads. */
  datatype DownloadProgress = DownloadProgress(modelName: string, status: string,
                                               completed: Option<nat>, total: Option<nat>)

  /** The JavaScript white-space and line-terminator characters that
      `trim` removes. */
  predicate IsWhiteSpace(c: char)
  {
    c == '\t' || c == '\n' || c == '\r' || c == ' ' || c == '\U{000B}' || c == '\U{000C}'
    || c == '\U{00A0}' || c == '\U{1680}' || ('\U{2000}' <= c <= '\U{200A}')
    || c == '\U{2028}' || c == '\U{2029}' || c == '\U{202F}' || c == '\U{205F}'
    || c == '\U{3000}' || c == '\U{FEFF}'
  }

  /** `!line.trim()`: the line is empty once white space is removed. */
  predicate IsBlank(line: string)
  {
    forall k :: 0 <= k < |line| ==> IsWhiteSpace(line[k])
  }

  /** The progress a status message produces: the sizes only when both are
      present and non-zero. */
  function ProgressOf(modelName: string, msg: PullMessage): (p: DownloadProgress)
    requires msg.status.Some?
    ensures p.modelName == modelName && p.status == msg.status.value
    ensures p.completed.Some? <==> p.total.Some?
    ensures p.completed.Some? <==>
              msg.completed.Some? && msg.completed.value != 0 && msg.total.Some? && msg.total.value != 0
    ensures p.completed.Some? ==> p.completed == msg.completed && p.total == msg.total
  {
    var sized := msg.completed.Some? && msg.completed.value != 0 && msg.total.Some? && msg.total.value != 0;
    DownloadProgress(modelName, msg.status.value,
                     if sized then msg.completed else None,
                     if sized then msg.total else None)
  }

  /** Whether a line leaves the progress alone: it is blank, it does not
      parse (`parse` yields None where `JSON.parse` throws), or it has no
      status. */
  predicate Skipped(line: string, parse: string -> Option<PullMessage>)
    ensures !Skipped(line, parse) ==>
              !IsBlank(line) && parse(line).Some? && parse(line).value.status.Some?
              && parse(line).value.status.value != ""
  {
    IsBlank(line) || parse(line).None? || parse(line).value.status.None?
    || parse(line).value.status.value == ""
  }

  /** The effect of one complete line on the shown progress. */
  function Step(p: Option<DownloadProgress>, line: string, parse: string -> Option<PullMessage>,
                modelName: string): (q: Option<DownloadProgress>)
    ensures Skipped(line, parse) ==> q == p
    ensures !Skipped(line, parse) ==> q == Some(ProgressOf(modelName, parse(line).value))
  {
    if Skipped(line, parse) then p else Some(ProgressOf(modelName, parse(line).value))
  }

  /** The progress after the lines in order. */
  function ProgressOver(p: Option<DownloadProgress>, lines: seq<string>,
                        parse: string -> Option<PullMessage>, modelName: string): (q: Option<DownloadProgress>)
    ensures q == p || (q.Some? && q.value.modelName == modelName)
    decreases |lines|
  {
    if lines == [] then p
    else Step(ProgressOver(p, lines[..|lines| - 1], parse, modelName), lines[|lines| - 1], parse, modelName)
  }

  lemma {:induction false} ProgressOverAppend(p: Option<DownloadProgress>, a: seq<string>, b: seq<string>,
                                              parse: string -> Option<PullMessage>, modelName: string)
    ensures ProgressOver(p, a + b, parse, modelName)
            == ProgressOver(ProgressOver(p, a, parse, modelName), b, parse, modelName)
    decreases |b|
  {
    if b == [] {
      assert a + b == a;
    } else {
      assert (a + b)[..|a + b| - 1] == a + b[..|b| - 1];
      ProgressOverAppend(p, a, b[..|b| - 1], parse, modelName);
    }
  }

  /** A skipped line (blank, unparseable or without status) is as if it
      had not been received: the lines after it are processed all the same. */
  lemma SkippedLineIsInvisible(p: Option<DownloadProgress>, a: seq<string>, line: string, b: seq<string>,
                               parse: string -> Option<PullMessage>, modelName: string)
    requires Skipped(line, parse)
    ensures ProgressOver(p, a + [line] + b, parse, modelName) == ProgressOver(p, a + b, parse, modelName)
  {
    ProgressOverAppend(p, a + [line], b, parse, modelName);
    ProgressOverAppend(p, a, b, parse, modelName);
    assert (a + [line])[..|a + [line]| - 1] == a;
  }

  /** The progress shown is that of the last line with a status, if any. */
  lemma LastStatusWins(p: Option<DownloadProgress>, a: seq<string>, line: string, b: seq<string>,
                       parse: string -> Option<PullMessage>, modelName: string)
    requires !Skipped(line, parse)
    requires forall i :: 0 <= i < |b| ==> Skipped(b[i], parse)
    ensures ProgressOver(p, a + [line] + b, parse, modelName) == Some(ProgressOf(modelName, parse(line).value))
  {
    ProgressOverAppend(p, a + [line], b, parse, modelName);
    assert (a + [line])[..|a + [line]| - 1] == a;
    AllSkipped(ProgressOver(p, a + [line], parse, modelName), b, parse, modelName);
  }

  lemma {:induction false} AllSkipped(p: Option<DownloadProgress>, b: seq<string>,
                                      parse: string -> Option<PullMessage>, modelName: string)
    requires forall i :: 0 <= i < |b| ==> Skipped(b[i], parse)
    ensures ProgressOver(p, b, parse, modelName) == p
    decreases |b|
  {
    if b != [] {
      AllSkipped(p, b[..|b| - 1], parse, modelName);
    }
  }

  lemma ConcatSnoc(received: seq<string>, chunk: string)
    ensures Concat(received + [chunk]) == Concat(received) + chunk
  {
    var all := received + [chunk];
    assert all[..|all| - 1] == received;
  }

  /** One chunk handled: the text accounted for grows by exactly the chunk. */
  lemma ChunkStep(processed: seq<string>, buffer: string, complete: seq<string>, rest: string,
                  received: seq<string>, chunk: string)
    requires Terminated(processed, LineFeed) + buffer == Concat(received)
    requires Terminated(complete, LineFeed) + rest == buffer + chunk
    ensures Terminated(processed + complete, LineFeed) + rest == Concat(received + [chunk])
  {
    TerminatedAppend(processed, complete, LineFeed);
    ConcatSnoc(received, chunk);
    var t1, t2 := Terminated(processed, LineFeed), Terminated(complete, LineFeed);
    assert t1 + t2 + rest == t1 + (t2 + rest);
  }

  /** The inner loop over the complete lines of one chunk: each line in
      turn updates the progress, or is skipped. */
  method ApplyLines(progress0: Option<DownloadProgress>, lines: seq<string>,
                    parse: string -> Option<PullMessage>, modelName: string)
    returns (progress: Option<DownloadProgress>)
    ensures progress == ProgressOver(progress0, lines, parse, modelName)
  {
    progress := progress0;
    var j := 0;
    while j < |lines|
      invariant 0 <= j <= |lines|
      invariant progress == ProgressOver(progress0, lines[..j], parse, modelName)
    {
      assert lines[..j + 1][..j] == lines[..j];
      progress := Step(progress, lines[j], parse, modelName);
      j := j + 1;
    }
    assert lines[..j] == lines;
  }

  /** The read loop of a download: each chunk is appended to the buffer,
      the buffer is split at line feeds, the last piece is kept as the new
      buffer and every complete line before it updates the progress. The
      result says which lines were processed, what remained in the buffer
      (a trailing partial line, never processed) and the final progress. */
  method ReadPullStream(chunks: seq<string>, parse: string -> Option<PullMessage>, modelName: string,
                        initial: Option<DownloadProgress>)
    returns (processed: seq<string>, buffer: string, progress: Option<DownloadProgress>)
    ensures Terminated(processed, LineFeed) + buffer == Concat(chunks)
    ensures Lacks(buffer, LineFeed)
    ensures forall i :: 0 <= i < |processed| ==> Lacks(processed[i], LineFeed)
    ensures progress == ProgressOver(initial, processed, parse, modelName)
  {
    processed, buffer, progress := [], "", initial;
    var n := 0;
    while n < |chunks|
      invariant 0 <= n <= |chunks|
      invariant Terminated(processed, LineFeed) + buffer == Concat(chunks[..n])
      invariant Lacks(buffer, LineFeed)
      invariant forall i :: 0 <= i < |processed| ==> Lacks(processed[i], LineFeed)
      invariant progress == ProgressOver(initial, processed, parse, modelName)
    {
      var received := buffer + chunks[n];
      var lines := Split(received, LineFeed);
      SplitJoin(received, LineFeed);
      SplitPiecesLackSeparator(received, LineFeed);
      var complete := lines[..|lines| - 1];
      ChunkStep(processed, buffer, complete, lines[|lines| - 1], chunks[..n], chunks[n]);
      assert chunks[..n + 1] == chunks[..n] + [chunks[n]];
      progress := ApplyLines(progress, complete, parse, modelName);
      ProgressOverAppend(initial, processed, complete, parse, modelName);
      processed := processed + complete;
      buffer := lines[|lines| - 1];
      n := n + 1;
    }
    assert chunks[..n] == chunks;
  }

  // ---- The page ----

  /** How a download request ended: the request was refused with an error
      body, the request could not be made or the response had no body, or
      a stream of chunks arrived, possibly cut off by a read error. */
  datatype PullOutcome =
    | PullRefused(error: Option<string>)
    | PullFailed
    | PullStream(chunks: seq<string>, cutOff: bool)

  /** How a delete request ended. */
  datatype DeleteOutcome = DeleteFailed | DeleteReply(ok: bool, message: string, error: string)

  /** How a list request ended. */
  datatype ListOutcome = ListFailed | ListReply(ok: bool, models: Option<seq<InstalledModel>>)

  class ModelsPage {
    var models: seq<InstalledModel>
    var loading: bool
    var pulling: bool
    var customModelName: string
    var downloadProgress: Option<DownloadProgress>
    var message: Option<Notice>

    /** The page as first shown: no models yet, loading, nothing downloading. */
    constructor ()
      ensures models == [] && loading && !pulling && customModelName == ""
      ensures downloadProgress.None? && message.None?
    {
      models, loading, pulling, customModelName := [], true, false, "";
      downloadProgress, message := None, None;
    }

    /** Load the installed models: replaced only by an ok reply (an absent
      list reads as empty); loading ends either way. */
    method FetchModels(outcome: ListOutcome)
      modifies this
      ensures outcome.ListReply? && outcome.ok ==>
                models == (if outcome.models.Some? then outcome.models.value else [])
      ensures !(outcome.ListReply? && outcome.ok) ==> models == old(models)
      ensures !loading
      ensures pulling == old(pulling) && customModelName == old(customModelName)
      ensures downloadProgress == old(downloadProgress) && message == old(message)
    {
      if outcome.ListReply? && outcome.ok {
        models := if outcome.models.Some? then outcome.models.value else [];
      }
      loading := false;
    }

    /** Download a model. Whatever happens, the progress is cleared and the
      page stops pulling at the end; the entered name is cleared only after
      a complete download. */
    method HandlePullModel(modelName: string, outcome: PullOutcome, parse: string -> Option<PullMessage>)
      modifies this
      ensures !pulling && downloadProgress.None?
      ensures models == old(models) && loading == old(loading)
      ensures outcome.PullRefused? ==>
                message == Some(Notice(Error, OrDefault(outcome.error, "Failed to pull model")))
                && customModelName == old(customModelName)
      ensures outcome.PullFailed? || (outcome.PullStream? && outcome.cutOff) ==>
                message == Some(Notice(Error, "Failed to pull model"))
                && customModelName == old(customModelName)
      ensures outcome.PullStream? && !outcome.cutOff ==>
                message == Some(Notice(Success, "Model " + modelName + " downloaded successfully!"))
                && customModelName == ""
    {
      pulling := true;
      message := None;
      downloadProgress := Some(DownloadProgress(modelName, "starting", None, None));
      match outcome {
        case PullRefused(error) =>
          message := Some(Notice(Error, OrDefault(error, "Failed to pull model")));
          downloadProgress := None;
        case PullFailed =>
          message := Some(Notice(Error, "Failed to pull model"));
          downloadProgress := None;
        case PullStream(chunks, cutOff) =>
          var processed, buffer, progress := ReadPullStream(chunks, parse, modelName, downloadProgress);
          downloadProgress := progress;
          if cutOff {
            message := Some(Notice(Error, "Failed to pull model"));
          } else {
            message := Some(Notice(Success, "Model " + modelName + " downloaded successfully!"));
            customModelName := "";
          }
          downloadProgress := None;
      }
      pulling := false;
    }

    /** Delete a model after the user confirms; the reply's message or
      error is shown. */
    method HandleDeleteModel(confirmed: bool, outcome: DeleteOutcome)
      modifies this
      ensures !confirmed ==> message == old(message)
      ensures confirmed && outcome.DeleteFailed? ==> message == Some(Notice(Error, "Failed to delete model"))
      ensures confirmed && outcome.DeleteReply? && outcome.ok ==> message == Some(Notice(Success, outcome.message))
      ensures confirmed && outcome.DeleteReply? && !outcome.ok ==> message == Some(Notice(Error, outcome.error))
      ensures models == old(models) && loading == old(loading) && pulling == old(pulling)
      ensures customModelName == old(customModelName) && downloadProgress == old(downloadProgress)
    {
      if !confirmed {
        return;
      }
      match outcome {
        case DeleteFailed =>
          message := Some(Notice(Error, "Failed to delete model"));
        case DeleteReply(ok, text, error) =>
          message := Some(if ok then Notice(Success, text) else Notice(Error, error));
      }
    }
  }
}

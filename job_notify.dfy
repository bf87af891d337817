/** The Slack message the job sends when it ends (`send_slack_notification`):
    the payload only. Posting it, and swallowing a failed post, is not part
    of this model; the duration arrives already formatted and the clock
    reading is a parameter. */
module Notify {
  import opened Strings
  import opened PyValue

  const SuccessColor := "#36a64f"
  const FailureColor := "#ff0000"

  /** Error messages longer than this are cut. */
  const ErrorLimit := 500

  datatype Block =
    | Header(text: string)
    | Fields(status: string, duration: string)
    | OutputsSection(text: string)
    | ErrorSection(text: string)
    | Context(text: string)

  /** The message body: its blocks, and the colour of its one attachment. */
  datatype Payload = Payload(blocks: seq<Block>, color: string)

  /** Python's `if error_message:`. */
  predicate HasError(errorMessage: Option<string>) {
    errorMessage.Some? && errorMessage.value != []
  }

  /** An error message as it is shown: cut to its first 500 characters
      followed by "..." when longer than that, unchanged otherwise. */
  function Truncated(message: string): (r: string)
    ensures |message| <= ErrorLimit ==> r == message
    ensures |message| > ErrorLimit ==>
      |r| == ErrorLimit + 3 && IsPrefix(r[..ErrorLimit], message) && r[ErrorLimit..] == "..."
    ensures |r| <= ErrorLimit + 3
  {
    Abbreviated(message, ErrorLimit)
  }

  function Bullet(url: string): string {
    "• `" + url + "`"
  }

  function Bullets(urls: seq<string>): (r: seq<string>)
    ensures |r| == |urls|
  {
    seq(|urls|, i requires 0 <= i < |urls| => Bullet(urls[i]))
  }

  /** The body of the outputs section: one bullet line per URL. */
  function OutputsText(urls: seq<string>): string {
    Join(Bullets(urls), "\n")
  }

  /** The outputs section lists every URL once, in the given order: its
      lines are exactly the bullets of the URLs (URLs hold no line break). */
  lemma OutputsTextLines(urls: seq<string>)
    requires urls != []
    requires forall k :: 0 <= k < |urls| ==> '\n' !in urls[k]
    ensures Split(OutputsText(urls), '\n') == Bullets(urls)
  {
    var b := Bullets(urls);
    forall k | 0 <= k < |b| ensures '\n' !in b[k] {
      assert b[k] == "• `" + urls[k] + "`";
    }
    SplitJoin(b, '\n');
  }

  /** The kinds of block, in the order they are sent: the header, the
      fields, the outputs section when there are outputs, the error
      section when there is an error, then the footer. */
  function BlockKinds(hasOutputs: bool, hasError: bool): seq<string> {
    ["header", "fields"] + (if hasOutputs then ["outputs"] else [])
    + (if hasError then ["error"] else []) + ["context"]
  }

  function KindOf(b: Block): string {
    match b
    case Header(_) => "header"
    case Fields(_, _) => "fields"
    case OutputsSection(_) => "outputs"
    case ErrorSection(_) => "error"
    case Context(_) => "context"
  }

  function Kinds(blocks: seq<Block>): seq<string> {
    seq(|blocks|, i requires 0 <= i < |blocks| => KindOf(blocks[i]))
  }

  /** Lines 103-160: the blocks are built by appending, and a long error
      message is replaced by its truncation before it is shown. */
  method BuildPayload(jobName: string, status: string, durationText: string,
                      outputUrls: seq<string>, errorMessage: Option<string>, now: string)
    returns (p: Payload)
    ensures p.color == if status == "success" then SuccessColor else FailureColor
    ensures |p.blocks| == 3 + (if outputUrls != [] then 1 else 0) + (if HasError(errorMessage) then 1 else 0)
    ensures Kinds(p.blocks) == BlockKinds(outputUrls != [], HasError(errorMessage))
    ensures p.blocks[0] == Header(
      if status == "success" then ":white_check_mark: Job Completed: " + jobName
      else ":x: Job Failed: " + jobName)
    ensures p.blocks[1] == Fields("*Status:*\n" + Title(status), "*Duration:*\n" + durationText + " minutes")
    ensures outputUrls != [] ==> p.blocks[2] == OutputsSection("*Outputs:*\n" + OutputsText(outputUrls))
    ensures HasError(errorMessage) ==>
      p.blocks[|p.blocks| - 2] == ErrorSection("*Error:*\n```" + Truncated(errorMessage.value) + "```")
    ensures p.blocks[|p.blocks| - 1] == Context("DeepFabric Cloud • " + now + " UTC")
  {
    var color, title;
    if status == "success" {
      color := SuccessColor;
      title := ":white_check_mark: Job Completed: " + jobName;
    } else {
      color := FailureColor;
      title := ":x: Job Failed: " + jobName;
    }
    var blocks := [
      Header(title),
      Fields("*Status:*\n" + Title(status), "*Duration:*\n" + durationText + " minutes")
    ];
    if outputUrls != [] {
      blocks := blocks + [OutputsSection("*Outputs:*\n" + OutputsText(outputUrls))];
    }
    if errorMessage.Some? && errorMessage.value != [] {
      var message := errorMessage.value;
      if |message| > ErrorLimit {
        message := message[..ErrorLimit] + "...";
      }
      blocks := blocks + [ErrorSection("*Error:*\n```" + message + "```")];
    }
    blocks := blocks + [Context("DeepFabric Cloud • " + now + " UTC")];
    p := Payload(blocks, color);
  }
}

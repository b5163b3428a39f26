/**
 * The Slack helpers: the block formatting of `send_formatted_message`,
 * the direct message of `send_message_to_slack_user`, the channel lookup
 * and the upload's default channel.  Every Slack Web API call is a
 * parameter saying what that call answers.
 */
module SlackApi {
  import opened Common

  /** `self.default_channel_id`. */
  const DefaultChannelId: string := "C08VA2TNFSQ"
  /** The channel `upload_file` uses when none is given. */
  const DefaultUploadChannel: string := "hvh-flock-ops"
  const PartSeparator: string := ", "
  const HeaderSeparator: string := ": "
  const Diamond: string := ":small_blue_diamond: "

  // ---------------------------------------------------------------------
  // str.split and str.join
  // ---------------------------------------------------------------------

  /** `sep` occurs in `s` at index `i`. */
  predicate OccursAt(s: string, sep: string, i: nat)
  {
    i + |sep| <= |s| && s[i..i + |sep|] == sep
  }

  /** The first index from `i` on at which `sep` occurs in `s`. */
  function FindFrom(s: string, sep: string, i: nat): (r: Option<nat>)
    requires |sep| > 0
    ensures r.Some? ==> i <= r.value && OccursAt(s, sep, r.value)
    ensures r.Some? ==> forall j :: i <= j < r.value ==> !OccursAt(s, sep, j)
    ensures r.None? ==> forall j :: i <= j ==> !OccursAt(s, sep, j)
    decreases |s| - i
  {
    if i + |sep| > |s| then None
    else if OccursAt(s, sep, i) then Some(i)
    else FindFrom(s, sep, i + 1)
  }

  /** Python's `s.find(sep)`, as an option. */
  function Find(s: string, sep: string): Option<nat>
    requires |sep| > 0
  {
    FindFrom(s, sep, 0)
  }

  /** `sep in s`. */
  predicate Contains(s: string, sep: string)
    requires |sep| > 0
  {
    Find(s, sep).Some?
  }

  /** Python's `s.split(sep)`: never empty. */
  function Split(s: string, sep: string): (r: seq<string>)
    requires |sep| > 0
    ensures |r| >= 1
    decreases |s|
  {
    match Find(s, sep)
    case None => [s]
    case Some(i) => [s[..i]] + Split(s[i + |sep|..], sep)
  }

  /** No piece of a split contains the separator. */
  lemma {:induction false} SplitPiecesLackSeparator(s: string, sep: string)
    requires |sep| > 0
    ensures forall k :: 0 <= k < |Split(s, sep)| ==> !Contains(Split(s, sep)[k], sep)
    decreases |s|
  {
    match Find(s, sep)
    case None =>
    case Some(i) =>
      var p := s[..i];
      SplitPiecesLackSeparator(s[i + |sep|..], sep);
      forall j: nat ensures !OccursAt(p, sep, j) {
        if j + |sep| <= |p| {
          assert p[j..j + |sep|] == s[j..j + |sep|];
          assert !OccursAt(s, sep, j);
        }
      }
      var r := Split(s, sep);
      forall k | 0 <= k < |r| ensures !Contains(r[k], sep) {
        if k > 0 {
          assert r[k] == Split(s[i + |sep|..], sep)[k - 1];
        }
      }
  }

  /** Python's `sep.join(parts)`. */
  function Join(parts: seq<string>, sep: string): string
    requires |parts| >= 1
    decreases |parts|
  {
    if |parts| == 1 then parts[0] else parts[0] + sep + Join(parts[1..], sep)
  }

  /** Splitting and joining again gives back the text. */
  lemma {:induction false} JoinSplit(s: string, sep: string)
    requires |sep| > 0
    ensures Join(Split(s, sep), sep) == s
    decreases |s|
  {
    if Find(s, sep).Some? {
      var i := Find(s, sep).value;
      var rest := s[i + |sep|..];
      JoinSplit(rest, sep);
      JoinSplitStep(s, sep, i);
    }
  }

  lemma JoinSplitStep(s: string, sep: string, i: nat)
    requires |sep| > 0 && Find(s, sep) == Some(i)
    requires Join(Split(s[i + |sep|..], sep), sep) == s[i + |sep|..]
    ensures Join(Split(s, sep), sep) == s
  {
    var parts := Split(s, sep);
    var rest := s[i + |sep|..];
    assert parts == [s[..i]] + Split(rest, sep);
    assert parts[1..] == Split(rest, sep);
    assert Join(parts, sep) == s[..i] + sep + Join(Split(rest, sep), sep);
    assert s == s[..i] + s[i..i + |sep|] + rest;
  }

  // ---------------------------------------------------------------------
  // send_formatted_message
  // ---------------------------------------------------------------------

  /** `format_part(part, is_header)`. */
  function FormatPart(part: string, isHeader: bool): string
  {
    if isHeader then "*" + Diamond + part + "*" else Diamond + "```" + part + "```"
  }

  /** The content of a `header: content` part; the check for a `{...}` structure chooses between two identical formats. */
  function FormatContent(content: string): string
  {
    if StartsWith(content, "{") && EndsWith(content, "}") then FormatPart(content, false) else FormatPart(content, false)
  }

  /** A nested structure is formatted like any other content. */
  lemma BracesMakeNoDifference(content: string)
    ensures FormatContent(content) == FormatPart(content, false)
  {
  }

  /** What one part contributes: header then content when it has a `": "`, content alone otherwise, then a newline. */
  function PartPieces(part: string): (r: seq<string>)
    ensures |r| >= 2 && r[|r| - 1] == "\n"
  {
    match Find(part, HeaderSeparator)
    case Some(i) => [FormatPart(part[..i], true), FormatContent(part[i + 2..]), "\n"]
    case None => [FormatPart(part, false), "\n"]
  }

  /** `''.join(pieces)`. */
  function Concat(pieces: seq<string>): string
    decreases |pieces|
  {
    if |pieces| == 0 then "" else pieces[0] + Concat(pieces[1..])
  }

  lemma {:induction false} ConcatAppend(a: seq<string>, b: seq<string>)
    ensures Concat(a + b) == Concat(a) + Concat(b)
    decreases |a|
  {
    if |a| == 0 {
      assert a + b == b;
    } else {
      assert (a + b)[1..] == a[1..] + b;
      ConcatAppend(a[1..], b);
    }
  }

  /** The pieces of every part, in order. */
  function AllPieces(parts: seq<string>): seq<string>
    decreases |parts|
  {
    if |parts| == 0 then [] else AllPieces(parts[..|parts| - 1]) + PartPieces(parts[|parts| - 1])
  }

  lemma AllPiecesPrefix(parts: seq<string>, k: nat)
    requires k < |parts|
    ensures AllPieces(parts[..k + 1]) == AllPieces(parts[..k]) + PartPieces(parts[k])
  {
    assert parts[..k + 1][..k] == parts[..k];
  }

  /** The mrkdwn text of the message's single section block. */
  function FormattedText(message: string): string
  {
    Concat(AllPieces(Split(message, PartSeparator)))
  }

  /** One iteration of the formatting loop: the pieces it appends for one part. */
  method FormatOnePart(part: string) returns (pieces: seq<string>)
    ensures pieces == PartPieces(part)
  {
    pieces := [];
    var i := Find(part, HeaderSeparator);
    if i.Some? {
      var header, content := part[..i.value], part[i.value + 2..];
      pieces := pieces + [FormatPart(header, true)];
      if StartsWith(content, "{") && EndsWith(content, "}") {
        pieces := pieces + [FormatPart(content, false)];
      } else {
        pieces := pieces + [FormatPart(content, false)];
      }
    } else {
      pieces := pieces + [FormatPart(part, false)];
    }
    pieces := pieces + ["\n"];
  }

  /** The formatting loop. */
  method FormatMessage(message: string) returns (formatted: string)
    ensures formatted == FormattedText(message)
  {
    var mainParts := Split(message, PartSeparator);
    var formattedParts: seq<string> := [];
    for k := 0 to |mainParts|
      invariant formattedParts == AllPieces(mainParts[..k])
    {
      var pieces := FormatOnePart(mainParts[k]);
      AllPiecesPrefix(mainParts, k);
      formattedParts := formattedParts + pieces;
    }
    assert mainParts[..|mainParts|] == mainParts;
    formatted := Concat(formattedParts);
  }

  lemma {:induction false} ConcatEndsWithNewline(pieces: seq<string>)
    requires |pieces| >= 1 && pieces[|pieces| - 1] == "\n"
    ensures |Concat(pieces)| >= 1 && EndsWith(Concat(pieces), "\n")
    decreases |pieces|
  {
    if |pieces| > 1 {
      ConcatEndsWithNewline(pieces[1..]);
      var t := Concat(pieces[1..]);
      assert (pieces[0] + t)[|pieces[0] + t| - 1..] == t[|t| - 1..];
    }
  }

  lemma AllPiecesEndWithNewline(parts: seq<string>)
    requires |parts| >= 1
    ensures var p := AllPieces(parts); |p| >= 2 && p[|p| - 1] == "\n"
  {
  }

  /** The formatted text is never empty and ends with a newline, also for an empty message. */
  lemma FormattedEndsWithNewline(message: string)
    ensures |FormattedText(message)| >= 1 && EndsWith(FormattedText(message), "\n")
  {
    AllPiecesEndWithNewline(Split(message, PartSeparator));
    ConcatEndsWithNewline(AllPieces(Split(message, PartSeparator)));
  }

  /** A message without `", "` or `": "` becomes one content block and a newline. */
  lemma PlainMessage(message: string)
    requires !Contains(message, PartSeparator) && !Contains(message, HeaderSeparator)
    ensures FormattedText(message) == Diamond + "```" + message + "```" + "\n"
  {
    assert Split(message, PartSeparator) == [message];
    assert [message][..0] == [];
    var ps := AllPieces([message]);
    assert ps == AllPieces([]) + PartPieces(message);
    assert ps == [FormatPart(message, false), "\n"];
    assert ps[1..] == ["\n"] && ps[1..][1..] == [];
    assert Concat(ps[1..]) == "\n" + Concat([]);
    assert Concat(ps) == FormatPart(message, false) + Concat(ps[1..]);
  }

  /** The first `": "` of `header + ": " + content` is the one after the header. */
  lemma HeaderFound(header: string, content: string)
    requires !Contains(header, HeaderSeparator)
    ensures Find(header + ": " + content, HeaderSeparator) == Some(|header|)
  {
    var m: string := header + ": " + content;
    assert m[|header|..|header| + 2] == HeaderSeparator;
    forall j: nat | j < |header| ensures !OccursAt(m, HeaderSeparator, j) {
      HeaderHasNoSeparator(header, content, j);
    }
    FindFirst(m, HeaderSeparator, |header|);
  }

  lemma HeaderHasNoSeparator(header: string, content: string, j: nat)
    requires !Contains(header, HeaderSeparator) && j < |header|
    ensures !OccursAt(header + ": " + content, HeaderSeparator, j)
  {
    var m: string := header + ": " + content;
    if j + 2 <= |header| {
      assert m[j..j + 2] == header[j..j + 2];
      assert !OccursAt(header, HeaderSeparator, j);
    } else {
      assert m[j + 1] == ':';
    }
  }

  /** An occurrence with none before it is what `find` returns. */
  lemma FindFirst(s: string, sep: string, i: nat)
    requires |sep| > 0 && OccursAt(s, sep, i)
    requires forall j: nat :: j < i ==> !OccursAt(s, sep, j)
    ensures Find(s, sep) == Some(i)
  {
  }

  /** A `header: content` message whose header has no `": "` becomes a header block, a content block and a newline. */
  lemma HeaderMessage(header: string, content: string)
    requires !Contains(header + ": " + content, PartSeparator) && !Contains(header, HeaderSeparator)
    ensures FormattedText(header + ": " + content) ==
      "*" + Diamond + header + "*" + Diamond + "```" + content + "```" + "\n"
  {
    var m: string := header + ": " + content;
    assert Split(m, PartSeparator) == [m];
    HeaderFound(header, content);
    assert m[..|header|] == header && m[|header| + 2..] == content;
    assert [m][..0] == [];
    var pieces := [FormatPart(header, true), FormatContent(content), "\n"];
    assert PartPieces(m) == pieces;
    assert AllPieces([m]) == AllPieces([]) + pieces;
    assert AllPieces([m]) == pieces;
    assert pieces[1..] == [FormatContent(content), "\n"] && pieces[1..][1..] == ["\n"] && pieces[1..][1..][1..] == [];
    assert Concat(pieces[1..][1..]) == "\n" + Concat([]);
    assert Concat(pieces[1..]) == FormatPart(content, false) + Concat(pieces[1..][1..]);
    assert Concat(pieces) == FormatPart(header, true) + Concat(pieces[1..]);
  }

  /** What `chat_postMessage` is asked to send: the formatted block and the original message as notification text. */
  datatype Post = Post(channel: string, blocksText: string, text: string)

  /** The response of a post; its other fields stay opaque. */
  datatype ApiResponse = ApiResponse(ok: bool, ts: Option<string>)

  /** `chat_postMessage`: raises a `SlackApiError` (the only exception caught), or answers. */
  datatype PostOutcome = PostRaises(error: string) | PostAnswer(response: ApiResponse)

  /** `send_formatted_message(channel, message)`: the response, or `None` when the post raises a `SlackApiError`. */
  method SendFormattedMessage(channel: string, message: string, outcome: PostOutcome)
    returns (post: Post, response: Option<ApiResponse>)
    ensures post == Post(channel, FormattedText(message), message)
    ensures response.None? <==> outcome.PostRaises?
    ensures outcome.PostAnswer? ==> response == Some(outcome.response)
  {
    var formatted := FormatMessage(message);
    post := Post(channel, formatted, message);
    match outcome
    case PostRaises(_) => response := None;
    case PostAnswer(r) => response := Some(r);
  }

  // ---------------------------------------------------------------------
  // send_message_to_slack_user
  // ---------------------------------------------------------------------

  const StudioLinkPrefix: string := "<https://smith.langchain.com/studio/thread/"
  const StudioLinkSuffix: string := " | View in LangGraph Studio>"

  /** The sent text: the message, and with a thread id the id and a link back to the thread. */
  function ThreadedText(message: string, threadId: Option<string>): (t: string)
    ensures !Truthy(threadId) ==> t == message
    ensures StartsWith(t, message)
    ensures Truthy(threadId) ==>
      t[|message|..] == "\n\nThread ID: " + threadId.value + "\n\n" + StudioLinkPrefix + threadId.value + StudioLinkSuffix
  {
    if Truthy(threadId) then
      var suffix := "\n\nThread ID: " + threadId.value + "\n\n" + StudioLinkPrefix + threadId.value + StudioLinkSuffix;
      PrefixStartsWith(message, suffix);
      assert (message + suffix)[|message|..] == suffix;
      message + suffix
    else
      PrefixStartsWith(message, []);
      assert message + [] == message;
      message
  }

  /** `conversations_open`: raises a `SlackApiError` (the only exception caught), answers without a channel id, or with one. */
  datatype OpenOutcome = OpenRaises(error: string) | OpenWithoutChannel | OpenChannel(id: string)

  /** The result dict; `messageTs` is `Some` exactly when the key is set (its value may be `None`). */
  datatype SendResult = SendResult(
    status: string,
    userId: string,
    error: Option<string>,
    channelId: Option<string>,
    messageTs: Option<Option<string>>)

  const OpenFailedText: string := "Failed to open conversation with user"
  const SendFailedText: string := "Message sending failed"

  /** `send_message_to_slack_user(user, message, thread_id)`; `sent` is the post, when one was made. */
  method SendMessageToSlackUser(slackUserId: string, message: string, threadId: Option<string>,
                                open: OpenOutcome, post: string -> PostOutcome)
    returns (result: SendResult, sent: Option<(string, string)>)
    ensures result.userId == slackUserId
    ensures result.status == "success" <==>
      open.OpenChannel? && post(ThreadedText(message, threadId)).PostAnswer? && post(ThreadedText(message, threadId)).response.ok
    ensures result.status != "success" ==> result.status == "failed" && result.error.Some?
    ensures result.status == "success" ==> result.error.None?
    ensures result.channelId.Some? <==> open.OpenChannel?
    ensures open.OpenChannel? ==> result.channelId == Some(open.id) && sent == Some((open.id, ThreadedText(message, threadId)))
    ensures !open.OpenChannel? ==> sent.None?
    ensures open.OpenRaises? ==> result.error == Some(open.error)
    ensures open.OpenWithoutChannel? ==> result.error == Some(OpenFailedText)
    ensures result.messageTs.Some? <==> result.status == "success"
    ensures result.status == "success" ==> result.messageTs == Some(post(ThreadedText(message, threadId)).response.ts)
  {
    result := SendResult("failed", slackUserId, None, None, None);
    sent := None;
    match open
    case OpenRaises(e) =>
      result := result.(error := Some(e));
    case OpenWithoutChannel =>
      result := result.(error := Some(OpenFailedText));
    case OpenChannel(channelId) =>
      result := result.(channelId := Some(channelId));
      var text := ThreadedText(message, threadId);
      sent := Some((channelId, text));
      match post(text)
      case PostRaises(e) =>
        result := result.(error := Some(e));
      case PostAnswer(r) =>
        if r.ok {
          result := result.(status := "success", messageTs := Some(r.ts));
        } else {
          result := result.(error := Some(SendFailedText));
        }
  }

  // ---------------------------------------------------------------------
  // get_channel_id and upload_file
  // ---------------------------------------------------------------------

  datatype Channel = Channel(name: string, id: string)

  /** `conversations_list`: raises a `SlackApiError` (the only exception caught), or lists the channels. */
  datatype ChannelList = ListRaises(error: string) | Channels(channels: seq<Channel>)

  /** The id of the first channel named `name`, if there is one. */
  function FirstChannelId(cs: seq<Channel>, name: string): Option<string>
  {
    if cs == [] then None
    else if cs[0].name == name then Some(cs[0].id)
    else FirstChannelId(cs[1..], name)
  }

  /** A channel id is found exactly when some channel has the name, and it is the id of the first such channel. */
  lemma {:induction false} FirstChannelIdIsFirst(cs: seq<Channel>, name: string)
    ensures FirstChannelId(cs, name).None? <==> forall k :: 0 <= k < |cs| ==> cs[k].name != name
    ensures FirstChannelId(cs, name).Some? ==>
      exists k :: 0 <= k < |cs| && cs[k].name == name && FirstChannelId(cs, name).value == cs[k].id &&
        forall j :: 0 <= j < k ==> cs[j].name != name
    decreases |cs|
  {
    if cs != [] && cs[0].name != name {
      FirstChannelIdIsFirst(cs[1..], name);
      if FirstChannelId(cs, name).Some? {
        var k :| 0 <= k < |cs[1..]| && cs[1..][k].name == name && FirstChannelId(cs[1..], name).value == cs[1..][k].id &&
          forall j :: 0 <= j < k ==> cs[1..][j].name != name;
        assert cs[k + 1] == cs[1..][k];
        assert forall j :: 0 <= j < k + 1 ==> cs[j].name != name by {
          forall j | 0 <= j < k + 1 ensures cs[j].name != name {
            if j > 0 { assert cs[j] == cs[1..][j - 1]; }
          }
        }
      } else {
        forall k | 0 <= k < |cs| ensures cs[k].name != name {
          if k > 0 { assert cs[k] == cs[1..][k - 1]; }
        }
      }
    }
  }

  /** The channel id `get_channel_id(name)` settles on: the first match, else the default. */
  function ChannelIdOf(name: string, list: ChannelList): string
  {
    if list.ListRaises? then DefaultChannelId
    else
      match FirstChannelId(list.channels, name)
      case Some(id) => id
      case None => DefaultChannelId
  }

  /** `get_channel_id(name)`: the id of the first channel with that name, else (and on an error) the default. */
  method GetChannelId(name: string, list: ChannelList) returns (id: string)
    ensures id == ChannelIdOf(name, list)
    ensures list.ListRaises? ==> id == DefaultChannelId
    ensures list.Channels? && (forall k :: 0 <= k < |list.channels| ==> list.channels[k].name != name) ==> id == DefaultChannelId
    ensures list.Channels? && (exists k :: 0 <= k < |list.channels| && list.channels[k].name == name) ==>
      exists k :: 0 <= k < |list.channels| && list.channels[k].name == name && id == list.channels[k].id &&
        forall j :: 0 <= j < k ==> list.channels[j].name != name
  {
    if list.ListRaises? {
      return DefaultChannelId;
    }
    var cs := list.channels;
    FirstChannelIdIsFirst(cs, name);
    for k := 0 to |cs|
      invariant forall j :: 0 <= j < k ==> cs[j].name != name
      invariant FirstChannelId(cs[k..], name) == FirstChannelId(cs, name)
    {
      assert cs[k..][1..] == cs[k + 1..];
      if cs[k].name == name {
        return cs[k].id;
      }
    }
    id := DefaultChannelId;
  }

  /** `channel_name` when given: only `None` selects the default (an empty name is kept). */
  function UploadChannel(channelName: Option<string>): (c: string)
    ensures channelName.None? ==> c == DefaultUploadChannel
    ensures channelName.Some? ==> c == channelName.value
  {
    if channelName.None? then DefaultUploadChannel else channelName.value
  }

  /** What `files_upload_v2` is asked to do. */
  datatype Upload = Upload(channelId: string, file: string, title: string, initialComment: string)

  /** `files_upload_v2`: raises a `SlackApiError` (the only exception caught), or answers with the file's permalink (`None` when absent). */
  datatype UploadOutcome = UploadRaises(error: string) | Uploaded(permalink: Option<string>)

  /** `upload_file(path, channel_name, comment)`: the permalink, or `None` when the upload raises a `SlackApiError`. */
  method UploadFile(filePath: string, channelName: Option<string>, comment: Option<string>,
                    list: ChannelList, outcome: UploadOutcome)
    returns (url: Option<string>, upload: Upload)
    ensures upload.file == filePath && upload.title == "Assistant Artifact"
    ensures upload.initialComment == (if Truthy(comment) then comment.value else "Here is the file:")
    ensures upload.channelId == ChannelIdOf(UploadChannel(channelName), list)
    ensures channelName.None? && list.ListRaises? ==> upload.channelId == DefaultChannelId
    ensures outcome.UploadRaises? ==> url.None?
    ensures outcome.Uploaded? ==> url == outcome.permalink
  {
    var name := UploadChannel(channelName);
    var channelId := GetChannelId(name, list);
    upload := Upload(channelId, filePath, "Assistant Artifact", OrElse(comment, Some("Here is the file:")).value);
    match outcome
    case UploadRaises(_) => url := None;
    case Uploaded(link) => url := link;
  }
}

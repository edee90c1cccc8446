/** The event stream of a subscription, in the Server-Sent Events format of
    section 9.2 of the WHATWG HTML Living Standard: `data:` frames carrying
    `{type, data}` JSON, `:heartbeat` comment frames, each ended by a blank
    line. A reading client is modelled too, so that what it receives can be
    stated. */
module ServerSentEvents {
  import opened Js
  import opened Text
  import opened Socket

  datatype Frame = OpenFrame | MessageFrame(event: map<string, Json>) | HeartbeatFrame

  /** The response headers written before the first frame (status 200). */
  const StreamHeaders: seq<(string, string)> := [
    ("Content-Type", "text/event-stream"),
    ("Cache-Control", "no-cache"),
    ("X-Accel-Buffering", "no"),
    ("X-Powered-By", "Bridgeport"),
    ("Connection", "keep-alive")
  ]

  /** `JSON.stringify({type: 'open', data: []})`. */
  const OpenPayload := "{\"type\":\"open\",\"data\":[]}"

  /** `JSON.stringify({type: 'message', data: event})`. */
  function MessagePayload(event: map<string, Json>, stringify: Stringify): string
  {
    "{\"type\":\"message\",\"data\":" + stringify(JObj(event)) + "}"
  }

  function FrameText(f: Frame, stringify: Stringify): string
  {
    match f
    case OpenFrame => "\ndata: " + OpenPayload + "\n\n"
    case MessageFrame(e) => "data: " + MessagePayload(e, stringify) + "\n\n"
    case HeartbeatFrame => ":heartbeat" + "\n\n"
  }

  /** The response body: the frames written one after another. */
  function StreamText(frames: seq<Frame>, stringify: Stringify): string
  {
    if frames == [] then "" else FrameText(frames[0], stringify) + StreamText(frames[1..], stringify)
  }

  /** The event data a frame is meant to deliver; a heartbeat delivers none. */
  function Payloads(frames: seq<Frame>, stringify: Stringify): seq<string>
  {
    if frames == [] then []
    else
      match frames[0]
      case OpenFrame => [OpenPayload] + Payloads(frames[1..], stringify)
      case MessageFrame(e) => [MessagePayload(e, stringify)] + Payloads(frames[1..], stringify)
      case HeartbeatFrame => Payloads(frames[1..], stringify)
  }

  // ---------------------------------------------------------------------
  // The reading client: the event-stream interpretation of section 9.2.6,
  // for LF line ends and the `data` field (the only field this server sends).
  // ---------------------------------------------------------------------

  /** The value after `field:`, less one leading space. */
  function FieldValue(v: string): string
  {
    if v != "" && v[0] == ' ' then v[1..] else v
  }

  /** The data of the events dispatched while reading `lines`, with `data`
      the data buffer so far. A blank line dispatches a non-empty buffer less
      its final line feed; a line starting with a colon is a comment; at the end
      of the stream an unfinished event is discarded. */
  function Dispatch(lines: seq<string>, data: string): seq<string>
    decreases |lines|
  {
    if lines == [] then []
    else
      var line := lines[0];
      if line == "" then
        (if data == "" then [] else [data[..|data| - 1]]) + Dispatch(lines[1..], "")
      else if line[0] == ':' then Dispatch(lines[1..], data)
      else if line == "data" then Dispatch(lines[1..], data + "\n")
      else if "data:" <= line then Dispatch(lines[1..], data + FieldValue(line[5..]) + "\n")
      else Dispatch(lines[1..], data)
  }

  function ReceivedData(body: string): seq<string>
  {
    Dispatch(Lines(body), "")
  }

  /** Reading one `data: payload` line and the blank line after it. */
  lemma DataLineThenBlank(payload: string, rest: string)
    requires NoLineBreak(payload)
    ensures ReceivedData("data: " + payload + "\n\n" + rest) == [payload] + ReceivedData(rest)
  {
    var w := "data: " + payload;
    assert "data: " + payload + "\n\n" + rest == w + "\n" + ("" + "\n" + rest);
    LinesOfLine(w, "" + "\n" + rest);
    LinesOfLine("", rest);
    assert "" + "\n" + rest == "\n" + rest;
    var lines := [w] + ([""] + Lines(rest));
    assert Lines("data: " + payload + "\n\n" + rest) == lines;
    assert w[0] == 'd' && "data:" <= w && w[5..] == " " + payload;
    assert FieldValue(w[5..]) == payload;
    assert lines[1..] == [""] + Lines(rest);
    assert Dispatch(lines, "") == Dispatch([""] + Lines(rest), "" + payload + "\n");
    assert ("" + payload + "\n")[..|payload|] == payload;
  }

  /** The open frame starts with a blank line, which dispatches nothing. */
  lemma OpenFrameDelivers(rest: string)
    ensures ReceivedData("\ndata: " + OpenPayload + "\n\n" + rest) == [OpenPayload] + ReceivedData(rest)
  {
    var tail := "data: " + OpenPayload + "\n\n" + rest;
    assert "\ndata: " + OpenPayload + "\n\n" + rest == "" + "\n" + tail;
    LinesOfLine("", tail);
    var lines := [""] + Lines(tail);
    assert lines[1..] == Lines(tail);
    assert Dispatch(lines, "") == Dispatch(Lines(tail), "");
    DataLineThenBlank(OpenPayload, rest);
  }

  /** A heartbeat is a comment line and a blank line with nothing buffered. */
  lemma HeartbeatDelivers(rest: string)
    ensures ReceivedData(":heartbeat" + "\n\n" + rest) == ReceivedData(rest)
  {
    var c := ":heartbeat";
    assert c + "\n\n" + rest == c + "\n" + ("" + "\n" + rest);
    LinesOfLine(c, "" + "\n" + rest);
    LinesOfLine("", rest);
    assert "" + "\n" + rest == "\n" + rest;
    var lines := [c] + ([""] + Lines(rest));
    assert Lines(c + "\n\n" + rest) == lines;
    assert lines[1..] == [""] + Lines(rest);
    assert Dispatch(lines, "") == Dispatch([""] + Lines(rest), "");
    assert ([""] + Lines(rest))[1..] == Lines(rest);
  }

  /** Each frame delivers exactly its payload, whatever follows it. */
  lemma FrameDelivers(f: Frame, rest: string, stringify: Stringify)
    requires SingleLine(stringify)
    ensures ReceivedData(FrameText(f, stringify) + rest) == Payloads([f], stringify) + ReceivedData(rest)
  {
    assert [f][1..] == [];
    match f
    case OpenFrame =>
      OpenFrameDelivers(rest);
    case MessageFrame(e) =>
      var p := MessagePayload(e, stringify);
      assert NoLineBreak(stringify(JObj(e)));
      assert NoLineBreak(p);
      DataLineThenBlank(p, rest);
    case HeartbeatFrame =>
      HeartbeatDelivers(rest);
  }

  /** A client reading the whole body receives the open payload and the
      message payloads in the order they were written; heartbeats are invisible. */
  lemma {:induction false} StreamDelivers(frames: seq<Frame>, stringify: Stringify)
    requires SingleLine(stringify)
    ensures ReceivedData(StreamText(frames, stringify)) == Payloads(frames, stringify)
    decreases |frames|
  {
    if frames != [] {
      FrameDelivers(frames[0], StreamText(frames[1..], stringify), stringify);
      StreamDelivers(frames[1..], stringify);
      assert Payloads(frames, stringify) == Payloads([frames[0]], stringify) + Payloads(frames[1..], stringify);
    } else {
      assert Lines("") == [];
    }
  }

  // ---------------------------------------------------------------------
  // The open stream, written to frame by frame
  // ---------------------------------------------------------------------

  /** The body of one subscription's response as it grows. */
  class EventStream {
    var headers: seq<(string, string)>
    var frames: seq<Frame>

    /** The open frame comes first and only once; no sent event carries the
        transient field. */
    ghost predicate Valid()
      reads this
    {
      && |frames| >= 1 && frames[0] == OpenFrame
      && forall i :: 1 <= i < |frames| ==>
           && !frames[i].OpenFrame?
           && (frames[i].MessageFrame? ==> TransientId !in frames[i].event)
    }

    /** Writes the headers and the open frame. */
    constructor ()
      ensures Valid() && headers == StreamHeaders && frames == [OpenFrame]
    {
      headers := StreamHeaders;
      frames := [OpenFrame];
    }

    /** A change arrives: restore `_id` and send the event. */
    method OnChange(event: map<string, Json>)
      requires Valid()
      modifies this
      ensures Valid()
      ensures headers == old(headers)
      ensures frames == old(frames) + [MessageFrame(Restore(event))]
    {
      var restored := Restore(event);
      frames := frames + [MessageFrame(restored)];
    }

    /** The keep-alive timer fires. */
    method Heartbeat()
      requires Valid()
      modifies this
      ensures Valid()
      ensures headers == old(headers)
      ensures frames == old(frames) + [HeartbeatFrame]
    {
      frames := frames + [HeartbeatFrame];
    }

    /** The body written so far, and what a client reading it receives. */
    function Body(stringify: Stringify): (body: string)
      reads this
      ensures SingleLine(stringify) ==> ReceivedData(body) == Payloads(frames, stringify)
    {
      assert SingleLine(stringify) ==> ReceivedData(StreamText(frames, stringify)) == Payloads(frames, stringify) by {
        if SingleLine(stringify) {
          StreamDelivers(frames, stringify);
        }
      }
      StreamText(frames, stringify)
    }
  }
}

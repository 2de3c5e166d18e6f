/** The chat page of frontend/app/page.jsx: the message list, sending a
    message and reading the streamed reply as server-sent events, and loading
    the stored history of two sessions. The network, TextDecoder and
    JSON.parse are collaborators: the reply arrives as already-decoded text
    chunks, and `delta` gives the `choices[0].delta.content` of a payload
    ("" when the payload is malformed or has none). */
module ChatPage {
  import opened Strings

  datatype Message = Message(role: string, text: string)

  const Greeting: Message := Message("assistant", "Topanga online. Ask me anything.")

  /** Events of the stream are separated by a blank line. */
  const FrameSeparator: string := "\n\n"
  const DataField: string := "data:"
  const DoneMarker: string := "[DONE]"
  const DefaultError: string := "Error talking to backend."

  /** What one event of the stream means to the page. */
  datatype Frame = Ignored | Done | Data(payload: string)

  /** line.replace(/^data:\s?/, ""): the field name and at most one following
      whitespace character are removed. */
  function StripDataField(line: string): (payload: string)
    requires StartsWith(line, DataField)
    ensures |payload| <= |line| - |DataField|
    ensures line == DataField + payload <==> !(|line| > |DataField| && IsJsWhitespace(line[|DataField|]))
    ensures |line| > |DataField| && IsJsWhitespace(line[|DataField|]) ==>
              line == DataField + [line[|DataField|]] + payload
  {
    var rest := line[|DataField|..];
    assert line == DataField + rest;
    if rest != [] && IsJsWhitespace(rest[0]) then
      assert rest == [rest[0]] + rest[1..];
      rest[1..]
    else rest
  }

  /** How the page reads one event. */
  function ClassifyPart(part: string): Frame
  {
    var line := Trim(part);
    if !StartsWith(line, DataField) then Ignored
    else
      var data := StripDataField(line);
      if data == DoneMarker then Done else Data(data)
  }

  /** An event is ignored exactly when its trimmed text does not start with
      "data:"; otherwise it carries the payload behind "data:". */
  lemma ClassifyPartCases(part: string)
    ensures ClassifyPart(part) == Ignored <==> !StartsWith(Trim(part), DataField)
    ensures StartsWith(Trim(part), DataField) ==>
              (ClassifyPart(part) == Done <==> StripDataField(Trim(part)) == DoneMarker)
    ensures ClassifyPart(part).Data? ==>
              StartsWith(Trim(part), DataField) && ClassifyPart(part).payload == StripDataField(Trim(part))
              && ClassifyPart(part).payload != DoneMarker
  {
  }

  /** A delta goes into the text of the last message, which becomes an
      assistant message; an empty delta changes nothing. */
  function AppendDelta(messages: seq<Message>, delta: string): (r: seq<Message>)
    requires |messages| > 0
    ensures |r| == |messages|
    ensures r[..|r| - 1] == messages[..|messages| - 1]
    ensures delta == [] ==> r == messages
    ensures delta != [] ==> r[|r| - 1] == Message("assistant", messages[|messages| - 1].text + delta)
  {
    if delta == [] then messages
    else
      var last := messages[|messages| - 1];
      messages[..|messages| - 1] + [Message("assistant", last.text + delta)]
  }

  /** On an error the last message is replaced by an assistant message with the error text. */
  function ReplaceLast(messages: seq<Message>, text: string): (r: seq<Message>)
    requires |messages| > 0
    ensures |r| == |messages|
    ensures r[..|r| - 1] == messages[..|messages| - 1]
    ensures r[|r| - 1] == Message("assistant", text)
  {
    messages[..|messages| - 1] + [Message("assistant", text)]
  }

  datatype PartsOutcome = PartsOutcome(messages: seq<Message>, done: bool)

  /** The inner loop over the complete events of one chunk. */
  function FeedParts(messages: seq<Message>, parts: seq<string>, delta: string -> string): (r: PartsOutcome)
    requires |messages| > 0
    ensures |r.messages| == |messages|
    decreases |parts|
  {
    if parts == [] then PartsOutcome(messages, false)
    else
      match ClassifyPart(parts[0])
      case Ignored => FeedParts(messages, parts[1..], delta)
      case Done => PartsOutcome(messages, true)
      case Data(payload) => FeedParts(AppendDelta(messages, delta(payload)), parts[1..], delta)
  }

  datatype StreamState = StreamState(buffer: string, messages: seq<Message>, done: bool)

  /** Split the buffer and the new chunk at blank lines: the complete events
      and what follows the last blank line, which becomes the new buffer. */
  function Framing(buffer: string, chunk: string): (seq<string>, string)
  {
    var all := Split(buffer + chunk, FrameSeparator);
    (all[..|all| - 1], all[|all| - 1])
  }

  /** Nothing is lost in framing: the events and the new buffer joined with
      blank lines are the old buffer followed by the chunk, and neither the
      events nor the buffer hold a blank line. */
  lemma FramingShape(buffer: string, chunk: string)
    ensures var (parts, rest) := Framing(buffer, chunk);
            && Join(parts + [rest], FrameSeparator) == buffer + chunk
            && !Contains(rest, FrameSeparator)
            && forall k :: 0 <= k < |parts| ==> !Contains(parts[k], FrameSeparator)
  {
    var all := Split(buffer + chunk, FrameSeparator);
    SplitJoin(buffer + chunk, FrameSeparator);
    assert all == all[..|all| - 1] + [all[|all| - 1]];
  }

  /** One turn of the read loop. */
  function FeedChunk(st: StreamState, chunk: string, delta: string -> string): StreamState
    requires |st.messages| > 0
  {
    var (parts, rest) := Framing(st.buffer, chunk);
    var out := FeedParts(st.messages, parts, delta);
    StreamState(rest, out.messages, out.done)
  }

  /** The read loop over all chunks; "[DONE]" ends it. */
  function FeedAll(st: StreamState, chunks: seq<string>, delta: string -> string): (r: StreamState)
    requires |st.messages| > 0
    ensures |r.messages| == |st.messages|
    decreases |chunks|
  {
    if chunks == [] || st.done then st
    else FeedAll(FeedChunk(st, chunks[0], delta), chunks[1..], delta)
  }

  /** One step of the read loop. */
  lemma FeedAllUnfold(st: StreamState, chunks: seq<string>, delta: string -> string)
    requires |st.messages| > 0 && chunks != [] && !st.done
    ensures FeedAll(st, chunks, delta) == FeedAll(FeedChunk(st, chunks[0], delta), chunks[1..], delta)
  {
  }

  /** The streamed reply as the page sees it. */
  datatype StreamReply =
    | FetchFailed(message: string)
    | HttpError(status: nat, body: string)
    | NoBody
    | Stream(chunks: seq<string>, readError: Option<string>)

  function ErrorText(message: string): string
  {
    if message == [] then DefaultError else message
  }

  /** The message list after the whole reply has been handled. */
  function StreamOutcome(messages: seq<Message>, reply: StreamReply, delta: string -> string): seq<Message>
    requires |messages| > 0
  {
    match reply
    case FetchFailed(m) => ReplaceLast(messages, ErrorText(m))
    case HttpError(status, body) =>
      ReplaceLast(messages, if body != [] then body else "Request failed (" + NatToString(status) + ")")
    case NoBody => ReplaceLast(messages, "No stream")
    case Stream(chunks, readError) =>
      var st := FeedAll(StreamState("", messages, false), chunks, delta);
      if !st.done && readError.Some? then ReplaceLast(st.messages, ErrorText(readError.value))
      else st.messages
  }

  // ---------------------------------------------------------------------
  // Properties of the stream handling

  /** The events of a chunk touch only the last message. */
  lemma {:induction false} FeedPartsKeepsEarlier(messages: seq<Message>, parts: seq<string>, delta: string -> string)
    requires |messages| > 0
    ensures FeedParts(messages, parts, delta).messages[..|messages| - 1] == messages[..|messages| - 1]
    decreases |parts|
  {
    if parts != [] {
      match ClassifyPart(parts[0])
      case Ignored => FeedPartsKeepsEarlier(messages, parts[1..], delta);
      case Done =>
      case Data(payload) => FeedPartsKeepsEarlier(AppendDelta(messages, delta(payload)), parts[1..], delta);
    }
  }

  /** The stream touches only the last message. */
  lemma {:induction false} FeedAllKeepsEarlier(st: StreamState, chunks: seq<string>, delta: string -> string)
    requires |st.messages| > 0
    ensures FeedAll(st, chunks, delta).messages[..|st.messages| - 1] == st.messages[..|st.messages| - 1]
    decreases |chunks|
  {
    if chunks != [] && !st.done {
      var (parts, rest) := Framing(st.buffer, chunks[0]);
      FeedPartsKeepsEarlier(st.messages, parts, delta);
      FeedAllKeepsEarlier(FeedChunk(st, chunks[0], delta), chunks[1..], delta);
    }
  }

  /** However the reply goes, the list keeps its length and every message
      but the last is unchanged. */
  lemma StreamKeepsEarlier(messages: seq<Message>, reply: StreamReply, delta: string -> string)
    requires |messages| > 0
    ensures |StreamOutcome(messages, reply, delta)| == |messages|
    ensures StreamOutcome(messages, reply, delta)[..|messages| - 1] == messages[..|messages| - 1]
  {
    if reply.Stream? {
      FeedAllKeepsEarlier(StreamState("", messages, false), reply.chunks, delta);
    }
  }

  /** Once "[DONE]" has been seen, later chunks and a later read error change nothing. */
  lemma DoneStopsProcessing(st: StreamState, chunks: seq<string>, delta: string -> string)
    requires |st.messages| > 0 && st.done
    ensures FeedAll(st, chunks, delta) == st
  {
  }

  /** An ignored event changes nothing, and one "[DONE]" event ends the chunk. */
  lemma {:induction false} FeedPartsFirst(messages: seq<Message>, part: string, rest: seq<string>, delta: string -> string)
    requires |messages| > 0
    ensures !StartsWith(Trim(part), DataField) ==>
              FeedParts(messages, [part] + rest, delta) == FeedParts(messages, rest, delta)
    ensures ClassifyPart(part) == Done ==> FeedParts(messages, [part] + rest, delta) == PartsOutcome(messages, true)
    ensures ClassifyPart(part).Data? ==>
              FeedParts(messages, [part] + rest, delta) ==
              FeedParts(AppendDelta(messages, delta(ClassifyPart(part).payload)), rest, delta)
  {
    assert ([part] + rest)[0] == part && ([part] + rest)[1..] == rest;
    ClassifyPartCases(part);
  }

  // ---------------------------------------------------------------------
  // History

  datatype HistoryRow = HistoryRow(role: string, content: string, createdAt: int)

  /** One history fetch: null (response not ok), a body whose `messages` is
      not an array, or the rows. */
  datatype HistoryResult = NotOk | NoMessages | Rows(rows: seq<HistoryRow>)

  datatype Timed = Timed(message: Message, createdAt: int)

  function Entries(result: HistoryResult): (r: seq<Timed>)
    ensures result.Rows? ==> |r| == |result.rows|
    ensures !result.Rows? ==> r == []
  {
    if result.Rows? then
      seq(|result.rows|, k requires 0 <= k < |result.rows| =>
        Timed(Message(result.rows[k].role, result.rows[k].content), result.rows[k].createdAt))
    else []
  }

  /** All rows of all sessions, session by session, in the order received. */
  function Flatten(results: seq<HistoryResult>): seq<Timed>
    decreases |results|
  {
    if results == [] then [] else Flatten(results[..|results| - 1]) + Entries(results[|results| - 1])
  }

  /** Every row of every session is in the combined list, and nothing else is. */
  lemma {:induction false} FlattenMembership(results: seq<HistoryResult>, t: Timed)
    ensures t in Flatten(results) <==> exists i :: 0 <= i < |results| && t in Entries(results[i])
    decreases |results|
  {
    if results != [] {
      var n := |results| - 1;
      FlattenMembership(results[..n], t);
      if exists i :: 0 <= i < |results| && t in Entries(results[i]) {
        var i :| 0 <= i < |results| && t in Entries(results[i]);
        if i < n { assert results[..n][i] == results[i]; }
      }
      if exists i :: 0 <= i < n && t in Entries(results[..n][i]) {
        var i :| 0 <= i < n && t in Entries(results[..n][i]);
        assert results[i] == results[..n][i];
      }
    }
  }

  predicate SortedByTime(s: seq<Timed>) {
    forall i, j :: 0 <= i < j < |s| ==> s[i].createdAt <= s[j].createdAt
  }

  /** Insert before the first later entry. */
  function InsertByTime(x: Timed, s: seq<Timed>): (r: seq<Timed>)
    requires SortedByTime(s)
    ensures |r| == |s| + 1
    ensures r[0] == x || (s != [] && r[0] == s[0])
    ensures SortedByTime(r)
    ensures multiset(r) == multiset(s) + multiset{x}
  {
    if s == [] || x.createdAt <= s[0].createdAt then [x] + s
    else
      var rest := InsertByTime(x, s[1..]);
      assert s == [s[0]] + s[1..];
      assert s[0].createdAt <= rest[0].createdAt;
      [s[0]] + rest
  }

  /** combined.sort by created_at: ascending, and a permutation of the input. */
  function SortByTime(s: seq<Timed>): (r: seq<Timed>)
    ensures SortedByTime(r)
    ensures multiset(r) == multiset(s)
    ensures |r| == |s|
  {
    if s == [] then []
    else
      assert s == [s[0]] + s[1..];
      InsertByTime(s[0], SortByTime(s[1..]))
  }

  function Untimed(s: seq<Timed>): (r: seq<Message>)
    ensures |r| == |s|
    ensures forall k :: 0 <= k < |s| ==> r[k] == s[k].message
  {
    seq(|s|, k requires 0 <= k < |s| => s[k].message)
  }

  /** The list after loading history: untouched when any fetch failed
      outright or there are no rows; otherwise all rows, oldest first. */
  function HistoryOutcome(current: seq<Message>, fetched: Option<seq<HistoryResult>>): seq<Message>
  {
    if fetched.None? then current
    else
      var combined := Flatten(fetched.value);
      if combined == [] then current else Untimed(SortByTime(combined))
  }

  /** The merge keeps every row of both sessions, orders them by time, and
      leaves the list alone when there is nothing to show. */
  lemma HistoryMerge(current: seq<Message>, results: seq<HistoryResult>)
    ensures Flatten(results) == [] ==> HistoryOutcome(current, Some(results)) == current
    ensures Flatten(results) != [] ==>
              var sorted := SortByTime(Flatten(results));
              && HistoryOutcome(current, Some(results)) == Untimed(sorted)
              && SortedByTime(sorted)
              && multiset(sorted) == multiset(Flatten(results))
    ensures HistoryOutcome(current, None) == current
  {
  }

  // ---------------------------------------------------------------------
  // The page

  class Page {
    var messages: seq<Message>
    var input: string
    var sending: bool

    ghost predicate Valid()
      reads this
    {
      |messages| > 0
    }

    constructor ()
      ensures Valid()
      ensures messages == [Greeting] && input == "" && !sending
    {
      messages := [Greeting];
      input := "";
      sending := false;
    }

    /** The input box's onChange. */
    method SetInput(text: string)
      modifies this`input
      ensures input == text
    {
      input := text;
    }

    /** The synchronous part of sendMessage: the guard and the optimistic update. */
    method Submit() returns (outgoing: Option<string>)
      requires Valid()
      modifies this
      ensures Valid()
      ensures Trim(old(input)) == [] || old(sending) ==>
                outgoing == None && messages == old(messages) && input == old(input) && sending == old(sending)
      ensures Trim(old(input)) != [] && !old(sending) ==>
                && outgoing == Some(Trim(old(input)))
                && messages == old(messages) + [Message("user", Trim(old(input))), Message("assistant", "")]
                && input == "" && sending
    {
      var text := Trim(input);
      if text == [] || sending {
        return None;
      }
      messages := messages + [Message("user", text), Message("assistant", "")];
      input := "";
      sending := true;
      return Some(text);
    }

    /** The rest of sendMessage: read the reply and fold it into the list. */
    method Receive(reply: StreamReply, delta: string -> string)
      requires Valid()
      modifies this`messages, this`sending
      ensures Valid()
      ensures messages == StreamOutcome(old(messages), reply, delta)
      ensures !sending
    {
      sending := false; // the finally block; "[DONE]" clears it too
      match reply {
        case FetchFailed(m) =>
          messages := ReplaceLast(messages, ErrorText(m));
        case HttpError(status, body) =>
          var text := if body != [] then body else "Request failed (" + NatToString(status) + ")";
          messages := ReplaceLast(messages, text);
        case NoBody =>
          messages := ReplaceLast(messages, "No stream");
        case Stream(chunks, readError) =>
          ReadStream(chunks, readError, delta);
      }
    }

    /** The read loop over the body of a successful response. */
    method ReadStream(chunks: seq<string>, readError: Option<string>, delta: string -> string)
      requires Valid()
      modifies this`messages
      ensures Valid()
      ensures messages == StreamOutcome(old(messages), Stream(chunks, readError), delta)
    {
      ghost var goal := FeedAll(StreamState("", messages, false), chunks, delta);
      var buffer := "";
      var i := 0;
      while i < |chunks|
        invariant 0 <= i <= |chunks|
        invariant |messages| > 0
        invariant FeedAll(StreamState(buffer, messages, false), chunks[i..], delta) == goal
      {
        ghost var before := StreamState(buffer, messages, false);
        FeedAllUnfold(before, chunks[i..], delta);
        assert chunks[i..][0] == chunks[i] && chunks[i..][1..] == chunks[i + 1..];
        var framed := Framing(buffer, chunks[i]);
        var parts := framed.0;
        buffer := framed.1;
        var done := FeedEvents(parts, delta);
        ghost var after := StreamState(buffer, messages, done);
        assert FeedChunk(before, chunks[i], delta) == after;
        if done {
          DoneStopsProcessing(after, chunks[i + 1..], delta);
          return;
        }
        i := i + 1;
      }
      if readError.Some? {
        messages := ReplaceLast(messages, ErrorText(readError.value));
      }
    }

    /** The inner loop over the complete events of one chunk; true when "[DONE]" ended it. */
    method FeedEvents(parts: seq<string>, delta: string -> string) returns (done: bool)
      requires Valid()
      modifies this`messages
      ensures Valid()
      ensures PartsOutcome(messages, done) == FeedParts(old(messages), parts, delta)
    {
      var j := 0;
      while j < |parts|
        invariant 0 <= j <= |parts|
        invariant |messages| > 0
        invariant FeedParts(messages, parts[j..], delta) == FeedParts(old(messages), parts, delta)
      {
        var line := Trim(parts[j]);
        assert parts[j..] == [parts[j]] + parts[j + 1..];
        if !StartsWith(line, DataField) {
          j := j + 1;
          continue;
        }
        var data := StripDataField(line);
        if data == DoneMarker {
          return true;
        }
        messages := AppendDelta(messages, delta(data));
        j := j + 1;
      }
      return false;
    }

    /** sendMessage as a whole. */
    method SendMessage(reply: StreamReply, delta: string -> string) returns (outgoing: Option<string>)
      requires Valid()
      modifies this
      ensures Valid()
      ensures outgoing.None? <==> Trim(old(input)) == [] || old(sending)
      ensures outgoing.None? ==> messages == old(messages) && input == old(input) && sending == old(sending)
      ensures outgoing.Some? ==>
                && outgoing.value == Trim(old(input))
                && messages == StreamOutcome(old(messages) + [Message("user", outgoing.value), Message("assistant", "")], reply, delta)
                && input == "" && !sending
    {
      outgoing := Submit();
      if outgoing.Some? {
        Receive(reply, delta);
      }
    }

    /** The combining loops of the history effect. */
    method Combine(results: seq<HistoryResult>) returns (combined: seq<Timed>)
      ensures combined == Flatten(results)
    {
      combined := [];
      var i := 0;
      while i < |results|
        invariant 0 <= i <= |results|
        invariant combined == Flatten(results[..i])
      {
        var entries := Entries(results[i]);
        if results[i].Rows? {
          var rows := results[i].rows;
          var j := 0;
          while j < |rows|
            invariant 0 <= j <= |rows|
            invariant combined == Flatten(results[..i]) + entries[..j]
          {
            combined := combined + [Timed(Message(rows[j].role, rows[j].content), rows[j].createdAt)];
            assert entries[..j + 1] == entries[..j] + [entries[j]];
            j := j + 1;
          }
          assert entries[..|rows|] == entries;
        }
        assert results[..i + 1][..i] == results[..i];
        i := i + 1;
      }
      assert results[..|results|] == results;
    }

    /** The history effect: `fetched` is None when a fetch threw. */
    method LoadHistory(fetched: Option<seq<HistoryResult>>)
      requires Valid()
      modifies this`messages
      ensures Valid()
      ensures messages == HistoryOutcome(old(messages), fetched)
    {
      if fetched.None? {
        return;
      }
      var combined := Combine(fetched.value);
      if |combined| > 0 {
        messages := Untimed(SortByTime(combined));
      }
    }
  }
}

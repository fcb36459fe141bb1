/**
 * The run event stream over HTTP: the server's printer and cursor (api/v1/runs.py) and the browser's
 * incremental parser (frontend/src/api/client.ts), after section 9.2 of the WHATWG HTML Standard.
 */
module Sse {
  import opened Common
  import opened Text

  // ---------------------------------------------------------------- splitting

  predicate BreaksAt(text: string, j: nat) { j + 1 < |text| && text[j] == '\n' && text[j + 1] == '\n' }

  /** Where the first empty line starts, or the length of the text. */
  function Break(text: string): (i: nat)
    ensures i <= |text|
    ensures i < |text| ==> BreaksAt(text, i)
    ensures forall j: nat :: j < i ==> !BreaksAt(text, j)
  {
    if |text| < 2 then |text|
    else if text[0] == '\n' && text[1] == '\n' then 0
    else BreakShift(text); 1 + Break(text[1..])
  }

  lemma BreakShift(text: string)
    requires text != ""
    ensures forall j: nat :: j > 0 ==> (BreaksAt(text, j) <==> BreaksAt(text[1..], j - 1))
  {
  }

  /** `text.split("\n\n")`, its last part apart: the complete frames and what is left. */
  function Frames(text: string): (r: (seq<string>, string))
    ensures Break(r.1) == |r.1|
  {
    var i := Break(text);
    if i == |text| then ([], text)
    else var rest := Frames(text[i + 2..]); ([text[..i]] + rest.0, rest.1)
  }

  /** A break inside the first part is the break of the whole. */
  lemma BreakOfConcat(a: string, b: string)
    requires Break(a) < |a|
    ensures Break(a + b) == Break(a)
  {
    var i, j := Break(a), Break(a + b);
    assert BreaksAt(a + b, i);
    assert j < i ==> BreaksAt(a, j);
  }

  lemma FramesStep(text: string, i: nat)
    requires i == Break(text) < |text|
    ensures Frames(text) == ([text[..i]] + Frames(text[i + 2..]).0, Frames(text[i + 2..]).1)
  {
  }

  lemma FramesNone(text: string)
    requires Break(text) == |text|
    ensures Frames(text) == ([], text)
  {
  }

  /** Splitting what is left of a first part together with a second. */
  function Rest(a: string, b: string): (seq<string>, string) { Frames(Frames(a).1 + b) }

  /** It gives what splitting both at once gives. */
  lemma {:induction false} FramesOfConcat(a: string, b: string)
    ensures Frames(a + b).0 == Frames(a).0 + Rest(a, b).0
    ensures Frames(a + b).1 == Rest(a, b).1
    decreases |a|
  {
    var i := Break(a);
    if i < |a| {
      var tail := a[i + 2..];
      FramesOfConcat(tail, b);
      FramesOfHead(a, b, i);
      FramesStep(a, i);
      assert Rest(a, b) == Rest(tail, b);
      Associates([a[..i]], Frames(tail).0, Rest(tail, b).0);
    } else {
      FramesNone(a);
      assert Rest(a, b) == Frames(a + b);
    }
  }

  lemma FramesOfHead(a: string, b: string, i: nat)
    requires i == Break(a) < |a|
    ensures Frames(a + b) == ([a[..i]] + Frames(a[i + 2..] + b).0, Frames(a[i + 2..] + b).1)
  {
    BreakOfConcat(a, b);
    assert (a + b)[i + 2..] == a[i + 2..] + b && (a + b)[..i] == a[..i];
    FramesStep(a + b, i);
  }

  function Joined(pieces: seq<string>): string {
    if pieces == [] then "" else Joined(pieces[..|pieces| - 1]) + pieces[|pieces| - 1]
  }

  // ---------------------------------------------------------------- one frame

  const DATA := "data:"

  function FirstData(lines: seq<string>): (line: Option<string>)
    ensures line.Some? ==> DATA <= line.value
  {
    if lines == [] then None
    else if DATA <= lines[0] then Some(lines[0])
    else FirstData(lines[1..])
  }

  /** What is handed to the JSON parser for a frame, if anything. */
  function Payload(frame: string): Option<string> {
    match FirstData(Lines(frame))
    case None => None
    case Some(line) => Some(Strip(line[5..], IsSpace))
  }

  function Read(payload: Option<string>): seq<string> {
    match payload
    case None => []
    case Some(text) => [text]
  }

  function PayloadList(frame: string): seq<string> { Read(Payload(frame)) }

  function Payloads(frames: seq<string>): seq<string> { Collect(PayloadList, frames) }

  lemma PayloadsOfConcat(a: seq<string>, b: seq<string>)
    ensures Payloads(a + b) == Payloads(a) + Payloads(b)
  {
    CollectConcat(PayloadList, a, b);
  }

  // ---------------------------------------------------------------- the client

  method SplitFrames(text: string) returns (frames: seq<string>, left: string)
    ensures frames == Frames(text).0 && left == Frames(text).1
  {
    frames, left := [], text;
    var i := Break(left);
    while i < |left|
      invariant i == Break(left)
      invariant Frames(text).0 == frames + Frames(left).0 && Frames(text).1 == Frames(left).1
      decreases |left|
    {
      FramesStep(left, i);
      assert frames + ([left[..i]] + Frames(left[i + 2..]).0) == (frames + [left[..i]]) + Frames(left[i + 2..]).0;
      frames := frames + [left[..i]];
      left := left[i + 2..];
      i := Break(left);
    }
  }

  /** The frames of one read, in order. */
  method Deliver(frames: seq<string>) returns (payloads: seq<string>)
    ensures payloads == Payloads(frames)
  {
    payloads := [];
    for k := 0 to |frames|
      invariant payloads == Payloads(frames[..k])
    {
      assert frames[..k + 1][..k] == frames[..k];
      var payload := Payload(frames[k]);
      if payload.Some? { payloads := payloads + [payload.value]; }
    }
    assert frames[..|frames|] == frames;
  }

  /** The read loop: `pieces` are the texts of the reads in order, the result what reaches the JSON parser. */
  method StreamRunEvents(pieces: seq<string>) returns (payloads: seq<string>)
    ensures payloads == Payloads(Frames(Joined(pieces)).0)
  {
    payloads := [];
    var buffer := "";
    for i := 0 to |pieces|
      invariant (payloads, buffer) == Fed(pieces[..i])
    {
      assert pieces[..i + 1][..i] == pieces[..i];
      buffer := buffer + pieces[i];
      var frames;
      frames, buffer := SplitFrames(buffer);
      var delivered := Deliver(frames);
      payloads := payloads + delivered;
    }
    assert pieces[..|pieces|] == pieces;
    FedIsFrames(pieces);
  }

  /** However a text is cut into reads, the same payloads come out. */
  lemma CutsDoNotMatter(pieces: seq<string>, other: seq<string>)
    requires Joined(pieces) == Joined(other)
    ensures Fed(pieces) == Fed(other)
  {
    FedIsFrames(pieces);
    FedIsFrames(other);
  }

  /** The client's buffer and payloads after each read, step by step. */
  function Fed(pieces: seq<string>): (seq<string>, string) {
    if pieces == [] then ([], "")
    else
      var before := Fed(pieces[..|pieces| - 1]);
      var split := Frames(before.1 + pieces[|pieces| - 1]);
      (before.0 + Payloads(split.0), split.1)
  }

  lemma {:induction false} FedIsFrames(pieces: seq<string>)
    ensures Fed(pieces) == (Payloads(Frames(Joined(pieces)).0), Frames(Joined(pieces)).1)
    decreases |pieces|
  {
    if pieces != [] {
      var init, last := pieces[..|pieces| - 1], pieces[|pieces| - 1];
      FedIsFrames(init);
      FramesOfConcat(Joined(init), last);
      PayloadsOfConcat(Frames(Joined(init)).0, Frames(Frames(Joined(init)).1 + last).0);
    }
  }

  // ---------------------------------------------------------------- the printer

  datatype Emission = KeepAlive | Message(id: string, data: string)

  function Body(e: Emission): string {
    match e
    case KeepAlive => ": keep-alive"
    case Message(id, data) => "id: " + id + "\n" + DATA + " " + data
  }

  function Print(e: Emission): string { Body(e) + "\n\n" }

  function Printed(emissions: seq<Emission>): string {
    if emissions == [] then "" else Printed(emissions[..|emissions| - 1]) + Print(emissions[|emissions| - 1])
  }

  function DataOfOne(e: Emission): Option<string> { if e.Message? then Some(e.data) else None }

  function DataList(e: Emission): seq<string> { Read(DataOfOne(e)) }

  function DataOf(emissions: seq<Emission>): seq<string> { Collect(DataList, emissions) }

  predicate Trimmed(text: string) { text == "" || (!IsSpace(text[0]) && !IsSpace(text[|text| - 1])) }

  predicate Printable(e: Emission) { e.Message? ==> OneLine(e.id) && OneLine(e.data) && Trimmed(e.data) }

  /** Text without an empty line and without a final newline is one frame when it is closed. */
  lemma ClosedFrame(body: string)
    requires Break(body) == |body| && body != "" && body[|body| - 1] != '\n'
    ensures Frames(body + "\n\n") == ([body], "")
  {
    var text := body + "\n\n";
    assert BreaksAt(text, |body|);
    forall j: nat | j < |body|
      ensures !BreaksAt(text, j)
    {
      assert BreaksAt(text, j) ==> j + 1 < |body| && BreaksAt(body, j);
    }
    assert Break(text) == |body|;
    assert text[..|body|] == body && text[|body| + 2..] == "";
    FramesStep(text, |body|);
    FramesNone("");
    assert [body] + [] == [body];
  }

  /** The only newline of two lines is the one between them. */
  lemma NewlineAt(a: string, b: string, j: nat)
    requires OneLine(a) && OneLine(b) && j < |a| + 1 + |b|
    ensures (a + "\n" + b)[j] == '\n' <==> j == |a|
  {
    var text := a + "\n" + b;
    if j < |a| {
      assert text[j] == a[j];
    } else if j > |a| {
      assert text[j] == b[j - |a| - 1];
    }
  }

  lemma TwoLinesAreUnbroken(a: string, b: string)
    requires OneLine(a) && OneLine(b) && b != ""
    ensures var text := a + "\n" + b; Break(text) == |text| && text[|text| - 1] != '\n'
  {
    var text := a + "\n" + b;
    forall j: nat | j < |text|
      ensures !BreaksAt(text, j)
    {
      NewlineAt(a, b, j);
      if j + 1 < |text| { NewlineAt(a, b, j + 1); }
    }
    NewlineAt(a, b, |text| - 1);
  }

  lemma LinesOfTwo(a: string, b: string)
    requires OneLine(a) && OneLine(b)
    ensures Lines(a + "\n" + b) == [a, b]
  {
    var text := a + "\n" + b;
    assert text[|a|] == '\n';
    NewlineAt(a, b, LineEnd(text));
    assert text[..|a|] == a && text[|a| + 1..] == b;
  }

  lemma MessageLines(id: string, data: string)
    requires OneLine(id) && OneLine(data)
    ensures Payload(Body(Message(id, data))) == Some(Strip(data, IsSpace))
  {
    var idLine, dataLine := "id: " + id, DATA + " " + data;
    assert Body(Message(id, data)) == idLine + "\n" + dataLine;
    LinesOfTwo(idLine, dataLine);
    assert idLine[0] == 'i' && !(DATA <= idLine);
    assert FirstData([idLine, dataLine]) == Some(dataLine) by {
      assert [idLine, dataLine][1..] == [dataLine];
    }
    assert dataLine[5..] == " " + data;
    StripSpace(data);
  }

  lemma StripSpace(data: string)
    ensures Strip(" " + data, IsSpace) == Strip(data, IsSpace)
  {
    assert (" " + data)[1..] == data;
  }

  lemma KeepAliveSaysNothing()
    ensures Payload(Body(KeepAlive)) == None
  {
    var body := ": keep-alive";
    assert '\n' !in body;
    assert Lines(body) == [body];
    assert body[0] == ':' && !(DATA <= body);
  }

  lemma BodyIsOneFrame(e: Emission)
    requires Printable(e)
    ensures Frames(Print(e)) == ([Body(e)], "")
  {
    match e
    case Message(id, data) =>
      assert Body(e) == ("id: " + id) + "\n" + (DATA + " " + data);
      TwoLinesAreUnbroken("id: " + id, DATA + " " + data);
      ClosedFrame(Body(e));
    case KeepAlive =>
      assert '\n' !in Body(e);
      ClosedFrame(Body(e));
  }

  lemma PayloadsOfOne(frame: string)
    ensures Payloads([frame]) == Read(Payload(frame))
  {
    CollectOne(PayloadList, frame);
  }

  lemma BodyPayload(e: Emission)
    requires Printable(e)
    ensures Payload(Body(e)) == DataOfOne(e)
  {
    match e
    case Message(id, data) =>
      MessageLines(id, data);
      StripOfTrimmed(data, IsSpace);
    case KeepAlive => KeepAliveSaysNothing();
  }

  /** One printed emission read back: its data for a message, nothing for a keep-alive. */
  lemma PrintedOne(e: Emission)
    requires Printable(e)
    ensures Frames(Print(e)).1 == "" && Payloads(Frames(Print(e)).0) == Read(DataOfOne(e))
  {
    BodyIsOneFrame(e);
    PayloadsOfOne(Body(e));
    BodyPayload(e);
  }

  lemma {:induction false} PrintedAll(emissions: seq<Emission>)
    requires forall e :: e in emissions ==> Printable(e)
    ensures Frames(Printed(emissions)).1 == "" && Payloads(Frames(Printed(emissions)).0) == DataOf(emissions)
    decreases |emissions|
  {
    if emissions != [] {
      var init, last := emissions[..|emissions| - 1], emissions[|emissions| - 1];
      PrintedAll(init);
      FramesOfConcat(Printed(init), Print(last));
      assert "" + Print(last) == Print(last);
      PayloadsOfConcat(Frames(Printed(init)).0, Frames(Print(last)).0);
      PrintedOne(last);
    }
  }

  /**
   * The client undoes the server: however the printed text is cut into reads, and whatever keep-alives
   * are interleaved, the payloads come out in order, each exactly once, with nothing left over.
   */
  lemma ClientUndoesServer(emissions: seq<Emission>, pieces: seq<string>)
    requires forall e :: e in emissions ==> Printable(e)
    requires Joined(pieces) == Printed(emissions)
    ensures Fed(pieces) == (DataOf(emissions), "")
  {
    FedIsFrames(pieces);
    PrintedAll(emissions);
  }

  /** What the first frame of a printed message yields never holds a newline, nor space around it. */
  lemma PayloadIsTrimmedLine(frame: string)
    ensures var p := Payload(frame); p.Some? ==> OneLine(p.value) && Trimmed(p.value)
  {
    LinesAreLines(frame);
    var line := FirstData(Lines(frame));
    if line.Some? {
      FirstDataIsLine(Lines(frame));
      StripKeeps(line.value[5..]);
    }
  }

  lemma {:induction false} FirstDataIsLine(lines: seq<string>)
    ensures FirstData(lines).Some? ==> FirstData(lines).value in lines
  {
    if lines != [] { FirstDataIsLine(lines[1..]); }
  }

  lemma StripKeeps(text: string)
    ensures OneLine(text) ==> OneLine(Strip(text, IsSpace))
    ensures Trimmed(Strip(text, IsSpace))
  {
    StripLaws(text, IsSpace, SPACES);
    var i, j :| 0 <= i <= j <= |text| && KeepsRange(text, SPACES, i, j) && Strip(text, IsSpace) == text[i..j];
    assert forall c :: c in text[i..j] ==> c in text;
  }

  lemma {:induction false} PayloadsAreTrimmedLines(frames: seq<string>)
    ensures forall p :: p in Payloads(frames) ==> OneLine(p) && Trimmed(p)
    decreases |frames|
  {
    if frames != [] {
      PayloadsAreTrimmedLines(frames[..|frames| - 1]);
      PayloadIsTrimmedLine(frames[|frames| - 1]);
    }
  }

  /** A message with a one-line identifier arrives as its data exactly when the data is one trimmed line. */
  lemma ArrivesIffTrimmedLine(id: string, data: string)
    requires OneLine(id)
    ensures Payloads(Frames(Print(Message(id, data))).0) == [data] <==> OneLine(data) && Trimmed(data)
  {
    if OneLine(data) && Trimmed(data) {
      PrintedOne(Message(id, data));
    } else {
      PayloadsAreTrimmedLines(Frames(Print(Message(id, data))).0);
      assert data in [data];
    }
  }

  // ---------------------------------------------------------------- frames and fields

  /** Frames as they were sent, each closed by an empty line. */
  function Closed(frames: seq<string>): string {
    if frames == [] then "" else frames[0] + "\n\n" + Closed(frames[1..])
  }

  predicate Unbroken(text: string) { forall j :: 0 <= j < |text| ==> !BreaksAt(text, j) }

  /** Splitting loses no character: the frames, closed again, and what is left make up the text; no frame is broken. */
  lemma {:induction false} FramesMakeUpText(text: string)
    ensures text == Closed(Frames(text).0) + Frames(text).1 && Unbroken(Frames(text).1)
    ensures forall f :: f in Frames(text).0 ==> Unbroken(f)
    decreases |text|
  {
    var i := Break(text);
    if i < |text| {
      FramesMakeUpText(text[i + 2..]);
      FramesStep(text, i);
      HeadUnbroken(text, i);
      ClosedHead(text, i, Frames(text[i + 2..]).0, Frames(text[i + 2..]).1);
    } else {
      FramesNone(text);
    }
  }

  lemma HeadUnbroken(text: string, i: nat)
    requires i == Break(text) < |text|
    ensures Unbroken(text[..i])
  {
    forall j | 0 <= j < i
      ensures !BreaksAt(text[..i], j)
    {
      assert !BreaksAt(text, j);
    }
  }

  lemma ClosedHead(text: string, i: nat, frames: seq<string>, left: string)
    requires i < |text| && BreaksAt(text, i) && text[i + 2..] == Closed(frames) + left
    ensures text == Closed([text[..i]] + frames) + left
  {
    var all := [text[..i]] + frames;
    assert all[0] == text[..i] && all[1..] == frames;
    assert text == text[..i] + "\n\n" + text[i + 2..];
    Associates(text[..i] + "\n\n", Closed(frames), left);
  }

  /** The first data line is the first line that starts with the field name. */
  predicate IsFirstData(lines: seq<string>, i: nat) {
    i < |lines| && DATA <= lines[i] && forall j :: 0 <= j < i ==> !(DATA <= lines[j])
  }

  lemma {:induction false} FirstDataIs(lines: seq<string>)
    ensures FirstData(lines).None? ==> forall j :: 0 <= j < |lines| ==> !(DATA <= lines[j])
    ensures FirstData(lines).Some? ==>
              exists i :: 0 <= i < |lines| && IsFirstData(lines, i) && lines[i] == FirstData(lines).value
    decreases |lines|
  {
    if lines != [] {
      if DATA <= lines[0] {
        assert IsFirstData(lines, 0);
      } else {
        var rest := lines[1..];
        FirstDataIs(rest);
        assert forall j :: 0 < j < |lines| ==> lines[j] == rest[j - 1];
        if FirstData(lines).Some? {
          var i :| 0 <= i < |rest| && IsFirstData(rest, i) && rest[i] == FirstData(rest).value;
          assert IsFirstData(lines, i + 1) && lines[i + 1] == rest[i];
        }
      }
    }
  }

  /** A frame's payload is its first data line without the field name and surrounding space; without one it has none. */
  lemma PayloadIsFirstData(frame: string)
    ensures Payload(frame) == None ==> forall j :: 0 <= j < |Lines(frame)| ==> !(DATA <= Lines(frame)[j])
    ensures forall payload :: Payload(frame) == Some(payload) ==>
              exists i :: 0 <= i < |Lines(frame)| && IsFirstData(Lines(frame), i)
                          && Strips(Lines(frame)[i][5..], SPACES, payload)
  {
    FirstDataIs(Lines(frame));
    if Payload(frame).Some? {
      var i :| 0 <= i < |Lines(frame)| && IsFirstData(Lines(frame), i)
               && Lines(frame)[i] == FirstData(Lines(frame)).value;
      StripLaws(Lines(frame)[i][5..], IsSpace, SPACES);
    }
  }

  /** A printed message is its identifier line, its data line and an empty line; a keep-alive is a comment. */
  lemma PrintedLines(id: string, data: string)
    requires OneLine(id) && OneLine(data)
    ensures Lines(Body(Message(id, data))) == ["id: " + id, "data: " + data]
    ensures Print(Message(id, data)) == "id: " + id + "\n" + "data: " + data + "\n\n"
    ensures Print(KeepAlive)[0] == ':' && Unbroken(Body(KeepAlive)) && OneLine(Body(KeepAlive))
  {
    var idLine, dataLine := "id: " + id, DATA + " " + data;
    assert Body(Message(id, data)) == idLine + "\n" + dataLine;
    LinesOfTwo(idLine, dataLine);
    assert dataLine == "data: " + data;
    assert '\n' !in Body(KeepAlive);
  }
}

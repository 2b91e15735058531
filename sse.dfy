/** The dashboard's notification stream: a reader that buffers chunks and
    cuts them into frames at blank lines, a line-oriented `field: value`
    frame parser, the handling of `payment_received` frames, and the
    decision to reconnect after a failure.

    The parser is deliberately simpler than the event-stream format of the
    WHATWG HTML Standard (sections 9.2.5 and 9.2.6): frames are separated
    only by "\n\n", lines only by "\n", field and value are both trimmed,
    lines without a colon are ignored and `data` values are concatenated
    without a newline. */
module Sse {
  import opened Wrappers
  import opened Strings
  import opened Json
  import opened Session
  import Api

  const FrameSeparator := "\n\n"
  const LineSeparator := "\n"
  const DefaultEvent := "message"
  const PaymentReceived := "payment_received"
  const PaymentTitle := "Payment Received"
  const NoDescription := "No description"
  const ReconnectDelayMs := 5000

  // ---------------------------------------------------------------------------
  // Frame parsing
  // ---------------------------------------------------------------------------

  /** A parsed frame: its event type and its accumulated data. */
  datatype Frame = Frame(event: string, data: string)

  /** A line's field name and value. */
  type Field = (string, string)

  /** Splits a line at its first colon and trims both sides; `None` for a
      line without a colon. */
  function FieldOf(line: string): (f: Option<Field>)
    ensures f.None? <==> !Contains(line, ":")
  {
    match Find(line, ":")
    case None => None
    case Some(c) => Some((Trim(line[..c]), Trim(line[c + 1..])))
  }

  /** A line `name:value` whose name has no colon yields the trimmed name
      and the trimmed value, whatever colons the value holds. */
  lemma FieldOfLine(name: string, value: string)
    requires forall k :: 0 <= k < |name| ==> name[k] != ':'
    ensures FieldOf(name + ":" + value) == Some((Trim(name), Trim(value)))
  {
    var line := name + ":" + value;
    assert OccursAt(line, ":", |name|) by {
      assert line[|name|..|name| + 1] == ":";
    }
    forall k: nat | k < |name|
      ensures !OccursAt(line, ":", k)
    {
      assert line[k..k + 1] == [name[k]];
    }
    FindIsFirst(line, ":", |name|);
    assert line[..|name|] == name;
    assert line[|name| + 1..] == value;
  }

  /** The fields of a frame's lines, in order. */
  function FieldsOf(lines: seq<string>): (fs: seq<Option<Field>>)
    ensures |fs| == |lines|
  {
    seq(|lines|, i requires 0 <= i < |lines| => FieldOf(lines[i]))
  }

  /** Whether a field is named `name`. */
  predicate Names(f: Option<Field>, name: string) {
    f.Some? && f.value.0 == name
  }

  /** One step of the frame parser's line loop. */
  function Absorb(frame: Frame, f: Option<Field>): Frame {
    if Names(f, "event") then frame.(event := f.value.1)
    else if Names(f, "data") then frame.(data := frame.data + f.value.1)
    else frame
  }

  /** The frame a sequence of fields builds, from an empty "message" frame. */
  function ParseFields(fs: seq<Option<Field>>): Frame
    decreases |fs|
  {
    if fs == [] then Frame(DefaultEvent, "")
    else Absorb(ParseFields(fs[..|fs| - 1]), fs[|fs| - 1])
  }

  /** The frame of a part: its lines split at "\n". */
  function ParsePart(part: string): Frame {
    ParseFields(FieldsOf(Split(part, LineSeparator)))
  }

  /** The parser's loop over the lines of one frame. */
  method ParseFrame(part: string) returns (frame: Frame)
    ensures frame == ParsePart(part)
  {
    var lines := Split(part, LineSeparator);
    ghost var fields := FieldsOf(lines);
    var event := DefaultEvent;
    var data := "";
    for i := 0 to |lines|
      invariant Frame(event, data) == ParseFields(fields[..i])
    {
      assert fields[..i + 1][..i] == fields[..i];
      assert fields[i] == FieldOf(lines[i]);
      var line := lines[i];
      match Find(line, ":") {
        case None =>
        case Some(c) =>
          var field := Trim(line[..c]);
          var value := Trim(line[c + 1..]);
          if field == "event" {
            event := value;
          } else if field == "data" {
            data := data + value;
          }
      }
    }
    assert fields[..|lines|] == fields;
    frame := Frame(event, data);
  }

  /** The frame's event is the value of its last `event` field, "message"
      when there is none. */
  lemma {:induction false} EventIsLast(fs: seq<Option<Field>>)
    ensures (forall i :: 0 <= i < |fs| ==> !Names(fs[i], "event")) ==> ParseFields(fs).event == DefaultEvent
    ensures forall i :: 0 <= i < |fs| && Names(fs[i], "event")
                        && (forall k :: i < k < |fs| ==> !Names(fs[k], "event"))
                        ==> ParseFields(fs).event == fs[i].value.1
    decreases |fs|
  {
    if fs != [] {
      var n := |fs| - 1;
      var front := fs[..n];
      EventIsLast(front);
      assert ParseFields(fs) == Absorb(ParseFields(front), fs[n]);
      if forall i :: 0 <= i < |fs| ==> !Names(fs[i], "event") {
        assert forall i :: 0 <= i < n ==> front[i] == fs[i];
      }
      forall i | 0 <= i < n && Names(fs[i], "event") && (forall k :: i < k < |fs| ==> !Names(fs[k], "event"))
        ensures ParseFields(fs).event == fs[i].value.1
      {
        assert !Names(fs[n], "event");
        assert forall k :: i <= k < n ==> front[k] == fs[k];
      }
    }
  }

  /** The text a field adds to the frame's data. */
  function DataPiece(f: Option<Field>): string {
    if Names(f, "data") then f.value.1 else ""
  }

  /** The frame's data is the concatenation, in order, of the values of its
      `data` fields, with no separator. */
  lemma {:induction false} DataIsConcatenation(fs: seq<Option<Field>>)
    ensures ParseFields(fs).data == Concat(seq(|fs|, i requires 0 <= i < |fs| => DataPiece(fs[i])))
    decreases |fs|
  {
    if fs != [] {
      var front := fs[..|fs| - 1];
      DataIsConcatenation(front);
      var pieces := seq(|fs|, i requires 0 <= i < |fs| => DataPiece(fs[i]));
      assert pieces[..|pieces| - 1] == seq(|front|, i requires 0 <= i < |front| => DataPiece(front[i]));
    }
  }

  /** A line without a colon changes nothing, wherever it stands. */
  lemma {:induction false} FieldlessLineIgnored(a: seq<Option<Field>>, b: seq<Option<Field>>)
    ensures ParseFields(a + [None] + b) == ParseFields(a + b)
    decreases |b|
  {
    if b == [] {
      assert (a + [None] + b)[..|a|] == a;
      assert a + b == a;
    } else {
      var front := b[..|b| - 1];
      FieldlessLineIgnored(a, front);
      assert (a + [None] + b)[..|a + [None] + b| - 1] == a + [None] + front;
      assert (a + b)[..|a + b| - 1] == a + front;
    }
  }

  /** In terms of lines: dropping a colon-less line from a frame does not
      change what it parses to. */
  lemma ColonlessLineIgnored(a: seq<string>, line: string, b: seq<string>)
    requires !Contains(line, ":")
    ensures ParseFields(FieldsOf(a + [line] + b)) == ParseFields(FieldsOf(a + b))
  {
    FieldsOfAppend(a + [line], b);
    FieldsOfAppend(a, [line]);
    FieldsOfAppend(a, b);
    assert FieldsOf([line]) == [None];
    FieldlessLineIgnored(FieldsOf(a), FieldsOf(b));
  }

  lemma FieldsOfAppend(a: seq<string>, b: seq<string>)
    ensures FieldsOf(a + b) == FieldsOf(a) + FieldsOf(b)
  {
    forall i | 0 <= i < |a| + |b| ensures FieldsOf(a + b)[i] == (FieldsOf(a) + FieldsOf(b))[i] {
      if i < |a| { assert (a + b)[i] == a[i]; } else { assert (a + b)[i] == b[i - |a|]; }
    }
  }

  // ---------------------------------------------------------------------------
  // Frame handling
  // ---------------------------------------------------------------------------

  /** The amount and memo of a payment payload: `amountSats || amount || 0`
      and `memo || description || "No description"`. Reading a property of
      `null` throws. */
  function PaymentOf(p: Json): (r: Result<(Json, Json)>)
    ensures r.Err? <==> p.Null?
    ensures r.Ok? ==> Truthy(r.value.0) || r.value.0 == Num(0)
    ensures r.Ok? ==> Truthy(r.value.1)
    ensures r.Ok? && p.Obj? && Present(Lookup(p.members, "amountSats")) ==> r.value.0 == Lookup(p.members, "amountSats").value
    ensures r.Ok? && p.Obj? && !Present(Lookup(p.members, "amountSats")) && Present(Lookup(p.members, "amount"))
            ==> r.value.0 == Lookup(p.members, "amount").value
    ensures r.Ok? && !(p.Obj? && (Present(Lookup(p.members, "amountSats")) || Present(Lookup(p.members, "amount"))))
            ==> r.value.0 == Num(0)
    ensures r.Ok? && p.Obj? && Present(Lookup(p.members, "memo")) ==> r.value.1 == Lookup(p.members, "memo").value
    ensures r.Ok? && p.Obj? && !Present(Lookup(p.members, "memo")) && Present(Lookup(p.members, "description"))
            ==> r.value.1 == Lookup(p.members, "description").value
    ensures r.Ok? && !(p.Obj? && (Present(Lookup(p.members, "memo")) || Present(Lookup(p.members, "description"))))
            ==> r.value.1 == Str(NoDescription)
  {
    if p.Null? then Err(TypeErrorText)
    else
      var amountSats := Member(p, "amountSats").value;
      var amount := Member(p, "amount").value;
      var memo := Member(p, "memo").value;
      var description := Member(p, "description").value;
      Ok((if Present(amountSats) then amountSats.value else if Present(amount) then amount.value else Num(0),
          if Present(memo) then memo.value else if Present(description) then description.value else Str(NoDescription)))
  }

  /** What handling a frame does: a success notification followed by a
      refetch of the dashboard data, or a logged parse failure after which
      reading goes on. */
  datatype Effect = Notify(title: string, message: string) | Refetch | ParseFailed(raw: string)

  predicate Actionable(f: Frame) {
    f.event == PaymentReceived && f.data != ""
  }

  /** The handler of one frame; `parse` is `JSON.parse` (`None` when it
      throws) and `amountText` is the amount's `toLocaleString()`. */
  function FrameEffects(f: Frame, parse: string -> Option<Json>, amountText: Json -> string): (e: seq<Effect>)
    ensures e == [] <==> !Actionable(f)
    ensures e != [] && e[0].Notify? ==> e == [e[0], Refetch] && e[0].title == PaymentTitle
    ensures Actionable(f) && (parse(f.data).None? || parse(f.data).value.Null?) ==> e == [ParseFailed(f.data)]
    ensures Actionable(f) && parse(f.data).Some? && !parse(f.data).value.Null? ==> |e| == 2 && e[0].Notify?
  {
    if !Actionable(f) then []
    else
      match parse(f.data)
      case None => [ParseFailed(f.data)]
      case Some(p) =>
        match PaymentOf(p)
        case Err(_) => [ParseFailed(f.data)]
        case Ok((amount, memo)) => [Notify(PaymentTitle, amountText(amount) + " sats - " + ToText(memo)), Refetch]
  }

  /** A payment frame whose data parses to anything but `null` notifies
      with its amount and memo and then refetches; a payload that is not an
      object reads as "0 sats - No description". */
  lemma PaymentNotifies(f: Frame, parse: string -> Option<Json>, amountText: Json -> string)
    requires Actionable(f) && parse(f.data).Some? && !parse(f.data).value.Null?
    ensures var r := PaymentOf(parse(f.data).value);
            r.Ok? && FrameEffects(f, parse, amountText)
                     == [Notify(PaymentTitle, amountText(r.value.0) + " sats - " + ToText(r.value.1)), Refetch]
    ensures !parse(f.data).value.Obj? ==>
              FrameEffects(f, parse, amountText)
              == [Notify(PaymentTitle, amountText(Num(0)) + " sats - " + NoDescription), Refetch]
  {
  }

  /** The effects of one complete part; whitespace-only parts are skipped. */
  function PartEffects(part: string, parse: string -> Option<Json>, amountText: Json -> string): seq<Effect> {
    if Trim(part) == "" then [] else FrameEffects(ParsePart(part), parse, amountText)
  }

  /** Whitespace-only parts yield nothing. */
  lemma BlankPartIgnored(part: string, parse: string -> Option<Json>, amountText: Json -> string)
    requires AllSpace(part)
    ensures PartEffects(part, parse, amountText) == []
  {
    TrimEmptyIff(part);
  }

  /** The frame handler with its two collaborators fixed. */
  function Handler(parse: string -> Option<Json>, amountText: Json -> string): string -> seq<Effect> {
    part => PartEffects(part, parse, amountText)
  }

  /** The effects of handling complete parts in order. */
  function EffectsOf(parts: seq<string>, handle: string -> seq<Effect>): seq<Effect>
    decreases |parts|
  {
    if parts == [] then []
    else EffectsOf(parts[..|parts| - 1], handle) + handle(parts[|parts| - 1])
  }

  lemma EffectsOfSnoc(p: seq<string>, front: seq<string>, last: string, handle: string -> seq<Effect>)
    requires p == front + [last]
    ensures EffectsOf(p, handle) == EffectsOf(front, handle) + handle(last)
  {
    assert p[..|p| - 1] == front;
  }

  lemma {:induction false} EffectsOfAppend(a: seq<string>, b: seq<string>, handle: string -> seq<Effect>)
    ensures EffectsOf(a + b, handle) == EffectsOf(a, handle) + EffectsOf(b, handle)
    decreases |b|
  {
    if b == [] {
      assert a + b == a;
    } else {
      var front := b[..|b| - 1];
      var last := b[|b| - 1];
      EffectsOfAppend(a, front, handle);
      assert b == front + [last];
      assert a + b == (a + front) + [last];
      EffectsOfSnoc(a + b, a + front, last, handle);
      EffectsOfSnoc(b, front, last, handle);
    }
  }

  // ---------------------------------------------------------------------------
  // Chunk buffering
  // ---------------------------------------------------------------------------

  lemma FindAppend(s: string, t: string, sep: string)
    requires |sep| > 0 && Find(s, sep).Some?
    ensures Find(s + t, sep) == Find(s, sep)
  {
    var i := Find(s, sep).value;
    assert OccursAt(s + t, sep, i) by {
      assert (s + t)[i..i + |sep|] == s[i..i + |sep|];
    }
    forall k: nat | k < i
      ensures !OccursAt(s + t, sep, k)
    {
      assert !OccursAt(s, sep, k);
      assert (s + t)[k..k + |sep|] == s[k..k + |sep|];
    }
    FindIsFirst(s + t, sep, i);
  }

  lemma AppendSlices<T>(s: seq<T>, t: seq<T>, i: nat, j: nat)
    requires i <= j <= |s|
    ensures (s + t)[..i] == s[..i] && (s + t)[j..] == s[j..] + t
  {
  }

  lemma SplitAppendNone(s: string, t: string, sep: string)
    requires |sep| > 0 && Find(s, sep).None?
    ensures var p := Split(s, sep);
            |p| == 1 && p[..|p| - 1] == [] && p[|p| - 1] == s
  {
  }

  /** The step of `SplitAppend` where the separator occurs in `s`, given
      the property for the text after it. */
  lemma SplitAppendStep(s: string, t: string, sep: string, i: nat)
    requires |sep| > 0 && Find(s, sep) == Some(i)
    requires var q := Split(s[i + |sep|..], sep);
             Split(s[i + |sep|..] + t, sep) == q[..|q| - 1] + Split(q[|q| - 1] + t, sep)
    ensures var p := Split(s, sep);
            Split(s + t, sep) == p[..|p| - 1] + Split(p[|p| - 1] + t, sep)
  {
    var head := s[..i];
    var rest := s[i + |sep|..];
    var u := s + t;
    FindAppend(s, t, sep);
    AppendSlices(s, t, i, i + |sep|);
    SplitUnfold(u, sep, i, head, rest + t);
    SplitUnfold(s, sep, i, head, rest);
    var q := Split(rest, sep);
    Regroup(Split(u, sep), Split(s, sep), head, q, Split(rest + t, sep), Split(q[|q| - 1] + t, sep));
  }

  /** `[h] + q` with its last element replaced by `last`. */
  lemma Regroup<T>(whole: seq<T>, p: seq<T>, h: T, q: seq<T>, mid: seq<T>, last: seq<T>)
    requires |q| > 0 && p == [h] + q && whole == [h] + mid && mid == q[..|q| - 1] + last
    ensures whole == p[..|p| - 1] + last && p[|p| - 1] == q[|q| - 1]
  {
    assert p[..|p| - 1] == [h] + q[..|q| - 1];
  }

  /** Splitting is insensitive to where the text was cut: splitting `s + t`
      keeps every complete part of `s` and splits the rest of `s` together
      with `t`. */
  lemma {:induction false} SplitAppend(s: string, t: string, sep: string)
    requires |sep| > 0
    ensures var p := Split(s, sep);
            Split(s + t, sep) == p[..|p| - 1] + Split(p[|p| - 1] + t, sep)
    decreases |s|
  {
    match Find(s, sep) {
      case None =>
        SplitAppendNone(s, t, sep);
      case Some(i) =>
        SplitAppend(s[i + |sep|..], t, sep);
        SplitAppendStep(s, t, sep, i);
    }
  }

  lemma Unsnoc<T>(s: seq<T>)
    requires |s| > 0
    ensures s == s[..|s| - 1] + [s[|s| - 1]]
  {
  }

  /** The parts a sequence of chunks is cut into once the stream has
      delivered them all, the last, unfinished part excluded. */
  function CompleteParts(chunks: seq<string>): seq<string> {
    var p := Split(Concat(chunks), FrameSeparator);
    p[..|p| - 1]
  }

  /** The handling of one complete part. */
  method HandlePart(part: string, parse: string -> Option<Json>, amountText: Json -> string) returns (effects: seq<Effect>)
    ensures effects == PartEffects(part, parse, amountText)
  {
    effects := [];
    if Trim(part) != "" {
      var frame := ParseFrame(part);
      effects := FrameEffects(frame, parse, amountText);
    }
  }

  /** The inner loop over the complete parts of one split, in order. */
  method HandleParts(parts: seq<string>, parse: string -> Option<Json>, amountText: Json -> string) returns (effects: seq<Effect>)
    ensures effects == EffectsOf(parts, Handler(parse, amountText))
  {
    effects := [];
    for j := 0 to |parts|
      invariant effects == EffectsOf(parts[..j], Handler(parse, amountText))
    {
      assert parts[..j + 1][..j] == parts[..j];
      var e := HandlePart(parts[j], parse, amountText);
      effects := effects + e;
    }
    assert parts[..|parts|] == parts;
  }

  /** One turn of the read loop keeps the parts and the buffer equal to the
      split of everything received so far. */
  lemma ChunkStep(chunks: seq<string>, n: nat, parts: seq<string>, buffer: string)
    requires n < |chunks|
    requires parts + [buffer] == Split(Concat(chunks[..n]), FrameSeparator)
    ensures var split := Split(buffer + chunks[n], FrameSeparator);
            parts + split[..|split| - 1] + [split[|split| - 1]] == Split(Concat(chunks[..n + 1]), FrameSeparator)
  {
    var received := Concat(chunks[..n]);
    assert Concat(chunks[..n + 1]) == received + chunks[n] by {
      assert chunks[..n + 1][..n] == chunks[..n];
    }
    SplitAppend(received, chunks[n], FrameSeparator);
    var p := Split(received, FrameSeparator);
    SnocParts(parts, buffer);
    KeepLast(parts, p, Split(buffer + chunks[n], FrameSeparator));
  }

  /** Replacing the last part of `p` by a split of it. */
  lemma KeepLast<T>(parts: seq<T>, p: seq<T>, split: seq<T>)
    requires |p| > 0 && p[..|p| - 1] == parts && |split| > 0
    ensures parts + split[..|split| - 1] + [split[|split| - 1]] == p[..|p| - 1] + split
  {
    Unsnoc(split);
  }

  lemma SnocParts<T>(front: seq<T>, last: T)
    ensures var s := front + [last];
            s[..|s| - 1] == front && s[|s| - 1] == last
  {
  }

  /** The read loop: each chunk is appended to the buffer, the buffer is
      split at "\n\n", every part but the last is handled in order and the
      last becomes the new buffer. The parts and the buffer are exactly the
      split of everything received, so chunk boundaries do not matter and
      nothing is lost. */
  method ReadStream(chunks: seq<string>, parse: string -> Option<Json>, amountText: Json -> string)
    returns (parts: seq<string>, buffer: string, effects: seq<Effect>)
    ensures parts + [buffer] == Split(Concat(chunks), FrameSeparator)
    ensures parts == CompleteParts(chunks)
    ensures effects == EffectsOf(parts, Handler(parse, amountText))
  {
    parts := [];
    buffer := "";
    effects := [];
    var n := 0;
    while n < |chunks|
      invariant 0 <= n <= |chunks|
      invariant parts + [buffer] == Split(Concat(chunks[..n]), FrameSeparator)
      invariant effects == EffectsOf(parts, Handler(parse, amountText))
    {
      ChunkStep(chunks, n, parts, buffer);
      var split := Split(buffer + chunks[n], FrameSeparator);
      var complete := split[..|split| - 1];
      var handled := HandleParts(complete, parse, amountText);
      EffectsOfAppend(parts, complete, Handler(parse, amountText));
      effects := effects + handled;
      parts := parts + complete;
      // `parts.pop() || ""`: the last part, "" being the only falsy string
      buffer := split[|split| - 1];
      n := n + 1;
    }
    assert chunks[..n] == chunks;
    var all := parts + [buffer];
    assert all[..|all| - 1] == parts;
  }

  /** What the read loop keeps loses nothing and holds no separator: the
      handled parts and the final buffer, joined with "\n\n", give back
      everything received. */
  lemma StreamLosesNothing(chunks: seq<string>, parts: seq<string>, buffer: string)
    requires parts + [buffer] == Split(Concat(chunks), FrameSeparator)
    ensures Join(parts + [buffer], FrameSeparator) == Concat(chunks)
    ensures forall i :: 0 <= i < |parts| ==> !Contains(parts[i], FrameSeparator)
    ensures !Contains(buffer, FrameSeparator)
  {
    var all := parts + [buffer];
    JoinSplit(Concat(chunks), FrameSeparator);
    SplitPartsFree(Concat(chunks), FrameSeparator);
    assert forall i :: 0 <= i < |parts| ==> parts[i] == all[i];
    assert buffer == all[|all| - 1];
  }

  // ---------------------------------------------------------------------------
  // Connection and reconnection
  // ---------------------------------------------------------------------------

  /** How a failed step rejects: an abort (the controller was aborted) or
      any other error. */
  datatype Failure = AbortError | OtherError(message: string)

  /** How reading an opened stream ends. */
  datatype End = Done | ReadFailed(failure: Failure)

  /** One connection attempt: the request rejects, or it is answered with a
      status, with or without a body, and the body delivers chunks until it
      ends. */
  datatype Connection =
    | FetchFailed(failure: Failure)
    | Opened(status: int, hasBody: bool, chunks: seq<string>, end: End)

  /** The chunks the read loop gets to see. */
  function Streamed(c: Connection): seq<string> {
    if c.Opened? && Api.IsOk(c.status) && c.hasBody then c.chunks else []
  }

  /** The error a connection attempt ends with, `None` for a clean end. */
  function ConnectionError(c: Connection): Option<Failure> {
    match c
    case FetchFailed(f) => Some(f)
    case Opened(status, hasBody, _, end) =>
      if !Api.IsOk(status) then Some(OtherError("SSE connection failed: " + IntText(status)))
      else if !hasBody then Some(OtherError("Response body is null"))
      else if end.ReadFailed? then Some(end.failure)
      else None
  }

  /** A reconnect is scheduled after any error that is not an abort. */
  predicate Retries(c: Connection) {
    ConnectionError(c).Some? && ConnectionError(c).value.OtherError?
  }

  /** Retries happen after a rejected request that was not aborted, a
      refused or bodiless answer, and a read that failed for a reason other
      than an abort; never after a clean end or an abort. */
  lemma RetryCases(c: Connection)
    ensures c.FetchFailed? ==> (Retries(c) <==> !c.failure.AbortError?)
    ensures c.Opened? && !(Api.IsOk(c.status) && c.hasBody) ==> Retries(c)
    ensures c.Opened? && Api.IsOk(c.status) && c.hasBody ==> (Retries(c) <==> c.end.ReadFailed? && !c.end.failure.AbortError?)
  {
  }

  /** The stream subscription of a mounted dashboard: at most one connection
      attempt or one scheduled reconnect is alive at a time. */
  class Subscription {
    var aborted: bool
    var connecting: bool
    var timer: Option<nat>   // delay of the scheduled reconnect, if any
    var attempts: nat
    var effects: seq<Effect>

    ghost predicate Valid()
      reads this
    {
      !(connecting && timer.Some?) && (attempts == 0 ==> !connecting && timer.None?)
    }

    /** Mounting: a connection is attempted only when an access token is
        stored. */
    constructor (token: Option<string>)
      ensures Valid() && !aborted && timer == None && effects == []
      ensures connecting == HasText(token) && attempts == (if HasText(token) then 1 else 0)
    {
      aborted := false;
      connecting := HasText(token);
      timer := None;
      attempts := if HasText(token) then 1 else 0;
      effects := [];
    }

    /** The attempt in flight has ended: the frames it delivered are handled
        in order and exactly one reconnect is scheduled when it failed for
        a reason other than an abort. */
    method Ended(c: Connection, parse: string -> Option<Json>, amountText: Json -> string)
      requires Valid() && connecting
      modifies this
      ensures Valid() && !connecting && aborted == old(aborted) && attempts == old(attempts)
      ensures effects == old(effects) + EffectsOf(CompleteParts(Streamed(c)), Handler(parse, amountText))
      ensures timer == (if Retries(c) then Some(ReconnectDelayMs) else None)
    {
      var parts, buffer, handled := ReadStream(Streamed(c), parse, amountText);
      effects := effects + handled;
      connecting := false;
      timer := if Retries(c) then Some(ReconnectDelayMs) else None;
    }

    /** The reconnect timer fires: a new attempt starts unless the
        subscription was aborted meanwhile. */
    method TimerFired()
      requires Valid() && timer.Some?
      modifies this
      ensures Valid() && timer == None && aborted == old(aborted) && effects == old(effects)
      ensures connecting == !aborted && attempts == old(attempts) + (if aborted then 0 else 1)
    {
      timer := None;
      if !aborted {
        connecting := true;
        attempts := attempts + 1;
      }
    }

    /** Unmounting aborts the controller. */
    method Abort()
      modifies this
      ensures aborted && connecting == old(connecting) && timer == old(timer)
      ensures attempts == old(attempts) && effects == old(effects)
    {
      aborted := true;
    }
  }
}

/**
 The ACP client driver (crates/driver-acp-client/src/lib.rs): content blocks on the
 wire, and the polling task that turns repeated `session/update` answers into one
 stream of driver events.
 */
module Acp {
  import opened JsonAccess
  import opened TaskModel

  // ---------------------------------------------------------------- parts and blocks

  function Block(part: Part): Json {
    match part
    case Text(text) => JObject(map["kind" := JString("text"), "text" := JString(text)])
    case Data(value) => JObject(map["kind" := JString("data"), "json" := value])
    case FileRef(uri, mimeType) =>
      JObject(map["kind" := JString("resource"), "uri" := JString(uri),
                  "mimeType" := if mimeType.Some? then JString(mimeType.value) else JNull])
  }

  function Blocks(parts: seq<Part>): seq<Json> {
    seq(|parts|, i requires 0 <= i < |parts| => Block(parts[i]))
  }

  function BlockToPart(block: Json): Option<Part> {
    var kind := AsText(Get(block, "kind"));
    if kind == Some("text") then
      var text := AsText(Get(block, "text"));
      if text.Some? then Some(Text(text.value)) else None
    else if kind == Some("resource") then
      var uri := AsText(Get(block, "uri"));
      if uri.Some? then Some(FileRef(uri.value, AsText(Get(block, "mimeType")))) else None
    else if kind == Some("data") then
      var value := Get(block, "json");
      if value.Some? then Some(Data(value.value)) else None
    else None
  }

  function ReadableParts(blocks: seq<Json>): seq<Part> {
    if blocks == [] then []
    else
      var first := BlockToPart(blocks[0]);
      (if first.Some? then [first.value] else []) + ReadableParts(blocks[1..])
  }

  function OutputParts(event: Json): seq<Part> {
    var blocks := AsArray(Get(event, "output"));
    if blocks.Some? then ReadableParts(blocks.value) else []
  }

  lemma BlockRoundTrips(part: Part)
    ensures BlockToPart(Block(part)) == Some(part)
  {
  }

  lemma {:induction false} BlocksRoundTrip(parts: seq<Part>)
    ensures ReadableParts(Blocks(parts)) == parts
  {
    if parts != [] {
      BlockRoundTrips(parts[0]);
      assert Blocks(parts)[1..] == Blocks(parts[1..]);
      BlocksRoundTrip(parts[1..]);
    }
  }

  /** How a block is read, by its kind. */
  lemma BlocksByKind(fields: map<string, Json>, kind: string)
    requires "kind" in fields && fields["kind"] == JString(kind)
    ensures kind == "text" ==>
              BlockToPart(JObject(fields)) ==
              if "text" in fields && fields["text"].JString? then Some(Text(fields["text"].text)) else None
    ensures kind == "data" ==>
              BlockToPart(JObject(fields)) == if "json" in fields then Some(Data(fields["json"])) else None
    ensures kind == "resource" ==>
              BlockToPart(JObject(fields)) ==
              if "uri" in fields && fields["uri"].JString?
              then Some(FileRef(fields["uri"].text,
                                if "mimeType" in fields && fields["mimeType"].JString?
                                then Some(fields["mimeType"].text) else None))
              else None
    ensures kind !in {"text", "data", "resource"} ==> BlockToPart(JObject(fields)).None?
  {
  }

  /** A block says nothing but its kind and what the part holds; a missing media type is written as null. */
  lemma BlockFields(part: Part)
    ensures Block(part).JObject?
    ensures Block(part).fields.Keys ==
            if part.Text? then {"kind", "text"} else if part.Data? then {"kind", "json"} else {"kind", "uri", "mimeType"}
    ensures part.FileRef? && part.mimeType.None? ==> Block(part).fields["mimeType"] == JNull
  {
  }

  /** Unreadable blocks are left out, the others keep their order. */
  lemma {:induction false} ReadablePartsSnoc(blocks: seq<Json>, block: Json)
    ensures ReadableParts(blocks + [block]) ==
            ReadableParts(blocks) + if BlockToPart(block).Some? then [BlockToPart(block).value] else []
  {
    if blocks == [] {
      assert blocks + [block] == [block];
    } else {
      ReadablePartsSnoc(blocks[1..], block);
      assert (blocks + [block])[1..] == blocks[1..] + [block];
    }
  }

  /** A completed event carrying the blocks of some parts, whatever else it carries, yields those parts. */
  lemma OutputRoundTrips(parts: seq<Part>, fields: map<string, Json>)
    requires "output" in fields && fields["output"] == JArray(Blocks(parts))
    ensures OutputParts(JObject(fields)) == parts
  {
    BlocksRoundTrip(parts);
  }

  // ---------------------------------------------------------------- one remote event

  function SeqOf(event: Json): nat {
    OrElse(AsU64(Get(event, "seq")), 0)
  }

  function Kind(event: Json): string {
    OrElse(AsText(Get(event, "kind")), "")
  }

  function FailureMessage(event: Json): string {
    var error := Get(event, "error");
    OrElse(if error.Some? then AsText(Get(error.value, "message")) else None, "remote ACP task failed")
  }

  /** The cast to one byte keeps the low eight bits. */
  function Percent(event: Json): Option<nat> {
    var percent := AsU64(Get(event, "percent"));
    if percent.Some? then Some(percent.value % 256) else None
  }

  function Mapped(event: Json): Option<DriverEvent> {
    var kind := Kind(event);
    if kind == "Progress" then Some(DriverProgress(OrElse(AsText(Get(event, "message")), ""), Percent(event)))
    else if kind == "InputRequired" then
      Some(DriverInputRequired(InputRequest(OrElse(AsText(Get(event, "question")), "input required"), None)))
    else if kind == "Completed" then Some(DriverCompleted(OutputParts(event)))
    else if kind == "Failed" then
      Some(DriverFailed(PublicError("acp_task_failed", FailureMessage(event), false)))
    else if kind == "Cancelled" then Some(DriverCancelled)
    else None
  }

  function TextIn(fields: map<string, Json>, key: string, fallback: string): string {
    if key in fields && fields[key].JString? then fields[key].text else fallback
  }

  /** What the driver makes of each kind of remote event. */
  lemma RemoteEventsByKind(fields: map<string, Json>, kind: string)
    requires "kind" in fields && fields["kind"] == JString(kind)
    ensures kind == "Progress" ==>
              Mapped(JObject(fields)) ==
              Some(DriverProgress(TextIn(fields, "message", ""),
                                  if "percent" in fields && fields["percent"].JNumber? &&
                                     0 <= fields["percent"].number <= 0xFFFF_FFFF_FFFF_FFFF
                                  then Some(fields["percent"].number % 256) else None))
    ensures kind == "InputRequired" ==>
              Mapped(JObject(fields)) ==
              Some(DriverInputRequired(InputRequest(TextIn(fields, "question", "input required"), None)))
    ensures kind == "Completed" ==>
              Mapped(JObject(fields)) ==
              Some(DriverCompleted(if "output" in fields && fields["output"].JArray?
                                   then ReadableParts(fields["output"].items) else []))
    ensures kind == "Failed" ==>
              Mapped(JObject(fields)) ==
              Some(DriverFailed(PublicError("acp_task_failed",
                                            if "error" in fields && fields["error"].JObject?
                                            then TextIn(fields["error"].fields, "message", "remote ACP task failed")
                                            else "remote ACP task failed", false)))
    ensures kind == "Cancelled" ==> Mapped(JObject(fields)) == Some(DriverCancelled)
    ensures kind !in {"Progress", "InputRequired", "Completed", "Failed", "Cancelled"} ==> Mapped(JObject(fields)).None?
    ensures Final(JObject(fields)) <==> kind in {"Completed", "Failed", "Cancelled"}
  {
  }

  /** An event that does not say its kind is passed over. */
  lemma KindlessEventsAreIgnored(event: Json)
    requires event.JObject? ==> "kind" !in event.fields || !event.fields["kind"].JString?
    ensures Mapped(event).None? && !Final(event)
  {
  }

  predicate Final(event: Json) {
    Kind(event) in ["Completed", "Failed", "Cancelled"]
  }

  predicate Ends(event: DriverEvent) {
    event.DriverCompleted? || event.DriverFailed? || event.DriverCancelled?
  }

  // ---------------------------------------------------------------- polling on values

  /** How one poll of the child process ends. */
  datatype Poll = WriteFailed | TimedOut | Dropped | Response(body: Json)

  datatype Forward = Forward(seqNo: nat, event: DriverEvent)

  datatype Scan = Scan(lastSeq: nat, sent: seq<Forward>, done: bool)

  const START := Scan(0, [], false)

  function Sends(event: Json): seq<Forward> {
    var mapped := Mapped(event);
    if mapped.Some? then [Forward(SeqOf(event), mapped.value)] else []
  }

  function Consume(scan: Scan, event: Json): Scan {
    if scan.done || SeqOf(event) <= scan.lastSeq then scan
    else Scan(SeqOf(event), scan.sent + Sends(event), Final(event))
  }

  function ConsumeAll(scan: Scan, events: seq<Json>): Scan {
    if events == [] then scan
    else Consume(ConsumeAll(scan, events[..|events| - 1]), events[|events| - 1])
  }

  function Hear(scan: Scan, poll: Poll): Scan {
    if scan.done then scan
    else
      match poll
      case TimedOut => scan
      case WriteFailed => scan.(done := true)
      case Dropped => scan.(done := true)
      case Response(body) =>
        var events := AsArray(Get(body, "events"));
        if events.Some? then ConsumeAll(scan, events.value) else scan
  }

  function HearAll(scan: Scan, polls: seq<Poll>): Scan {
    if polls == [] then scan
    else Hear(HearAll(scan, polls[..|polls| - 1]), polls[|polls| - 1])
  }

  function EventsSent(sent: seq<Forward>): seq<DriverEvent> {
    seq(|sent|, i requires 0 <= i < |sent| => sent[i].event)
  }

  // ---------------------------------------------------------------- the polling task

  class AcpClientDriver {
    /** The session of each task whose polling task is alive. */
    var activeTasks: map<TaskId, Option<string>>

    constructor ()
      ensures activeTasks == map[]
    {
      activeTasks := map[];
    }

    /**
     The task `invoke` spawns, given how the prompt call ended and how each poll so far
     ended. It leaves the table of active tasks when it stops.
     */
    method PollTask(id: TaskId, prompt: Result<Json, string>, polls: seq<Poll>)
      returns (sent: seq<DriverEvent>)
      modifies this
      ensures prompt.Err? ==>
        && sent == [DriverFailed(PublicError("acp_prompt_failed", prompt.error, true))]
        && activeTasks == old(activeTasks) - {id}
      ensures prompt.Ok? ==>
        && sent == [DriverAccepted] + EventsSent(HearAll(START, polls).sent)
        && activeTasks == if HearAll(START, polls).done then old(activeTasks) - {id} else old(activeTasks)
    {
      if prompt.Err? {
        activeTasks := activeTasks - {id};
        return [DriverFailed(PublicError("acp_prompt_failed", prompt.error, true))];
      }
      sent := [DriverAccepted];
      var lastSeq, stopped, i := 0, false, 0;
      ghost var scan := START;
      while i < |polls| && !stopped
        invariant 0 <= i <= |polls|
        invariant scan == HearAll(START, polls[..i])
        invariant lastSeq == scan.lastSeq && stopped == scan.done
        invariant sent == [DriverAccepted] + EventsSent(scan.sent)
        invariant activeTasks == old(activeTasks)
        decreases |polls| - i
      {
        var poll := polls[i];
        assert polls[..i + 1][..i] == polls[..i];
        if poll.WriteFailed? || poll.Dropped? {
          stopped := true;
        } else if poll.Response? {
          var events := AsArray(Get(poll.body, "events"));
          if events.Some? {
            var more;
            lastSeq, more, stopped := ForwardAll(lastSeq, events.value, scan);
            sent := sent + more;
          }
        }
        scan := Hear(scan, poll);
        i := i + 1;
      }
      if stopped {
        NothingAfterDone(polls, i);
        activeTasks := activeTasks - {id};
      } else {
        assert polls[..i] == polls;
      }
    }
  }

  /** The inner loop over the events of one answer. */
  method ForwardAll(last: nat, events: seq<Json>, ghost prior: Scan)
    returns (lastSeq: nat, sent: seq<DriverEvent>, stopped: bool)
    requires prior.lastSeq == last && !prior.done
    ensures var after := ConsumeAll(prior, events);
            && lastSeq == after.lastSeq && stopped == after.done
            && EventsSent(after.sent) == EventsSent(prior.sent) + sent
  {
    lastSeq, sent, stopped := last, [], false;
    var i := 0;
    while i < |events| && !stopped
      invariant 0 <= i <= |events|
      invariant lastSeq == ConsumeAll(prior, events[..i]).lastSeq
      invariant stopped == ConsumeAll(prior, events[..i]).done
      invariant EventsSent(ConsumeAll(prior, events[..i]).sent) == EventsSent(prior.sent) + sent
      decreases |events| - i
    {
      var event := events[i];
      assert events[..i + 1][..i] == events[..i];
      if SeqOf(event) > lastSeq {
        lastSeq := SeqOf(event);
        var mapped := Mapped(event);
        SentMore(ConsumeAll(prior, events[..i]).sent, Sends(event));
        if mapped.Some? {
          sent := sent + [mapped.value];
        }
        stopped := Final(event);
      }
      i := i + 1;
    }
    if stopped {
      NothingMoreAfterDone(prior, events, i, |events|);
    }
    assert events[..|events|] == events;
  }

  lemma SentMore(sent: seq<Forward>, more: seq<Forward>)
    ensures EventsSent(sent + more) == EventsSent(sent) + EventsSent(more)
  {
  }

  lemma DoneStays(scan: Scan, event: Json)
    requires scan.done
    ensures Consume(scan, event) == scan
  {
  }

  lemma ConsumeNext(scan: Scan, log: seq<Json>, j: nat)
    requires 0 < j <= |log|
    ensures ConsumeAll(scan, log[..j]) == Consume(ConsumeAll(scan, log[..j - 1]), log[j - 1])
  {
    assert log[..j][..j - 1] == log[..j - 1];
  }

  lemma {:induction false} NothingMoreAfterDone(scan: Scan, events: seq<Json>, i: nat, j: nat)
    requires i <= j <= |events| && ConsumeAll(scan, events[..i]).done
    ensures ConsumeAll(scan, events[..j]) == ConsumeAll(scan, events[..i])
    decreases j
  {
    if i < j {
      NothingMoreAfterDone(scan, events, i, j - 1);
      ConsumeNext(scan, events, j);
      DoneStays(ConsumeAll(scan, events[..j - 1]), events[j - 1]);
    }
  }

  lemma {:induction false} NothingAfterDone(polls: seq<Poll>, i: nat)
    requires i <= |polls| && HearAll(START, polls[..i]).done
    ensures HearAll(START, polls) == HearAll(START, polls[..i])
    decreases |polls|
  {
    if i == |polls| {
      assert polls[..i] == polls;
    } else {
      var n := |polls| - 1;
      assert polls[..n][..i] == polls[..i];
      NothingAfterDone(polls[..n], i);
    }
  }

  // ---------------------------------------------------------------- what is forwarded, for any answers

  /** Numbers rise, and nothing follows an event that ends the task. */
  ghost predicate Tidy(scan: Scan) {
    && (forall i | 0 <= i < |scan.sent| :: 0 < scan.sent[i].seqNo <= scan.lastSeq)
    && (forall i, j | 0 <= i < j < |scan.sent| :: scan.sent[i].seqNo < scan.sent[j].seqNo)
    && (forall i | 0 <= i < |scan.sent| :: Ends(scan.sent[i].event) ==> scan.done && i == |scan.sent| - 1)
  }

  lemma FinalEventsEnd(event: Json)
    ensures Final(event) <==> Mapped(event).Some? && Ends(Mapped(event).value)
  {
  }

  lemma ConsumeIsTidy(scan: Scan, event: Json)
    requires Tidy(scan)
    ensures Tidy(Consume(scan, event))
  {
    FinalEventsEnd(event);
  }

  lemma {:induction false} ConsumeAllIsTidy(scan: Scan, events: seq<Json>)
    requires Tidy(scan)
    ensures Tidy(ConsumeAll(scan, events))
  {
    if events != [] {
      var n := |events| - 1;
      ConsumeAllIsTidy(scan, events[..n]);
      ConsumeIsTidy(ConsumeAll(scan, events[..n]), events[n]);
    }
  }

  /** Whatever the child answers, in whatever order and with whatever timeouts in between. */
  lemma {:induction false} ForwardedIsTidy(polls: seq<Poll>)
    ensures Tidy(HearAll(START, polls))
  {
    if polls != [] {
      var n := |polls| - 1;
      ForwardedIsTidy(polls[..n]);
      var scan, poll := HearAll(START, polls[..n]), polls[n];
      if poll.Response? && AsArray(Get(poll.body, "events")).Some? {
        ConsumeAllIsTidy(scan, AsArray(Get(poll.body, "events")).value);
      }
    }
  }

  // ---------------------------------------------------------------- what is forwarded, for prefixes of one log

  ghost predicate Rising(log: seq<Json>) {
    && (forall i | 0 <= i < |log| :: 0 < SeqOf(log[i]))
    && (forall i, j | 0 <= i < j < |log| :: SeqOf(log[i]) < SeqOf(log[j]))
  }

  /** The answer to one poll is a prefix of the remote log, or says nothing about events. */
  ghost predicate Reports(poll: Poll, log: seq<Json>) {
    poll.Response? ==>
      var events := AsArray(Get(poll.body, "events"));
      events.Some? ==> events.value <= log
  }

  /** How much of the log the answers before the first failure have shown, at most. */
  function Heard(polls: seq<Poll>): nat {
    if polls == [] then 0
    else
      var n := |polls| - 1;
      var before, events := Heard(polls[..n]), Shown(polls[n]);
      if Broken(polls[..n]) || |events| <= before then before else |events|
  }

  function Shown(poll: Poll): seq<Json> {
    if poll.Response? then OrElse(AsArray(Get(poll.body, "events")), []) else []
  }

  predicate Broken(polls: seq<Poll>) {
    exists i | 0 <= i < |polls| :: polls[i].WriteFailed? || polls[i].Dropped?
  }

  /** What one remote event contributes: the driver events it becomes and whether it ends the task. */
  datatype Line = Line(events: seq<DriverEvent>, final: bool)

  function LineOf(event: Json): Line {
    Line(EventsSent(Sends(event)), Final(event))
  }

  function Lines(log: seq<Json>): seq<Line> {
    seq(|log|, i requires 0 <= i < |log| => LineOf(log[i]))
  }

  function UntilFinal(lines: seq<Line>): seq<DriverEvent> {
    if lines == [] then []
    else lines[0].events + if lines[0].final then [] else UntilFinal(lines[1..])
  }

  predicate HasFinal(lines: seq<Line>) {
    lines != [] && (lines[0].final || HasFinal(lines[1..]))
  }

  lemma HeardIsInLog(polls: seq<Poll>, log: seq<Json>)
    requires forall i | 0 <= i < |polls| :: Reports(polls[i], log)
    ensures Heard(polls) <= |log|
  {
    if polls != [] {
      var n := |polls| - 1;
      HeardIsInLog(polls[..n], log);
      assert Reports(polls[n], log);
    }
  }

  lemma {:induction false} LastSeqOfPrefix(log: seq<Json>, k: nat)
    requires Rising(log) && k <= |log|
    ensures var scan := ConsumeAll(START, log[..k]);
            scan.done || (if k == 0 then scan.lastSeq == 0 else scan.lastSeq == SeqOf(log[k - 1]))
  {
    if k > 0 {
      assert log[..k][..k - 1] == log[..k - 1];
      LastSeqOfPrefix(log, k - 1);
    }
  }

  /** Hearing a shorter or equal prefix again changes nothing; a longer one continues where the last stopped. */
  lemma {:induction false} HearAgain(log: seq<Json>, k: nat, j: nat, base: Scan)
    requires Rising(log) && k <= |log| && j <= |log|
    requires base == ConsumeAll(START, log[..k])
    ensures ConsumeAll(base, log[..j]) == ConsumeAll(START, log[..Max(j, k)])
    decreases j
  {
    if j > 0 {
      HearAgain(log, k, j - 1, base);
      ConsumeNext(base, log, j);
      if j <= k {
        LastSeqOfPrefix(log, k);
      } else {
        ConsumeNext(START, log, j);
      }
    }
  }

  function Max(a: nat, b: nat): nat {
    if a < b then b else a
  }

  lemma BrokenSnoc(polls: seq<Poll>)
    requires polls != []
    ensures var n := |polls| - 1;
            Broken(polls) <==> Broken(polls[..n]) || polls[n].WriteFailed? || polls[n].Dropped?
  {
    var n := |polls| - 1;
    if Broken(polls[..n]) {
      var i :| 0 <= i < n && (polls[..n][i].WriteFailed? || polls[..n][i].Dropped?);
      assert polls[i] == polls[..n][i];
    }
    if Broken(polls) && !(polls[n].WriteFailed? || polls[n].Dropped?) {
      var i :| 0 <= i < |polls| && (polls[i].WriteFailed? || polls[i].Dropped?);
      assert polls[i] == polls[..n][i];
    }
  }

  lemma HearNext(log: seq<Json>, k: nat, base: Scan, poll: Poll)
    requires Rising(log) && k <= |log| && Reports(poll, log)
    requires base == ConsumeAll(START, log[..k])
    ensures |Shown(poll)| <= |log|
    ensures var scan := ConsumeAll(START, log[..Max(|Shown(poll)|, k)]);
            Hear(base, poll) == scan.(done := scan.done || poll.WriteFailed? || poll.Dropped?)
  {
    var j := |Shown(poll)|;
    assert Shown(poll) == log[..j];
    if base.done {
      NothingMoreAfterDone(START, log, k, Max(j, k));
    } else {
      HearAgain(log, k, j, base);
    }
  }

  lemma {:induction false} HearingAPrefix(polls: seq<Poll>, log: seq<Json>)
    requires Rising(log) && forall i | 0 <= i < |polls| :: Reports(polls[i], log)
    ensures Heard(polls) <= |log|
    ensures var scan := ConsumeAll(START, log[..Heard(polls)]);
            HearAll(START, polls) == scan.(done := scan.done || Broken(polls))
  {
    HeardIsInLog(polls, log);
    if polls != [] {
      var n := |polls| - 1;
      HearingAPrefix(polls[..n], log);
      BrokenSnoc(polls);
      assert Reports(polls[n], log);
      if !Broken(polls[..n]) {
        var k := Heard(polls[..n]);
        HearNext(log, k, ConsumeAll(START, log[..k]), polls[n]);
      }
    }
  }

  lemma {:induction false} UntilFinalSnoc(lines: seq<Line>, line: Line)
    ensures UntilFinal(lines + [line]) == UntilFinal(lines) + if HasFinal(lines) then [] else line.events
    ensures HasFinal(lines + [line]) <==> HasFinal(lines) || line.final
  {
    if lines == [] {
      assert lines + [line] == [line];
    } else {
      UntilFinalSnoc(lines[1..], line);
      assert (lines + [line])[1..] == lines[1..] + [line];
    }
  }

  lemma LinesSnoc(log: seq<Json>, k: nat)
    requires 0 < k <= |log|
    ensures Lines(log[..k]) == Lines(log[..k - 1]) + [LineOf(log[k - 1])]
  {
  }

  lemma ConsumeAddsALine(scan: Scan, event: Json)
    requires scan.done || scan.lastSeq < SeqOf(event)
    ensures var line, after := LineOf(event), Consume(scan, event);
            && EventsSent(after.sent) == EventsSent(scan.sent) + (if scan.done then [] else line.events)
            && after.done == (scan.done || line.final)
  {
    SentMore(scan.sent, Sends(event));
  }

  lemma {:induction false} ConsumedIsUntilFinal(log: seq<Json>, k: nat)
    requires Rising(log) && k <= |log|
    ensures EventsSent(ConsumeAll(START, log[..k]).sent) == UntilFinal(Lines(log[..k]))
    ensures ConsumeAll(START, log[..k]).done <==> HasFinal(Lines(log[..k]))
  {
    if k > 0 {
      ConsumedIsUntilFinal(log, k - 1);
      ConsumeNext(START, log, k);
      LastSeqOfPrefix(log, k - 1);
      ConsumeAddsALine(ConsumeAll(START, log[..k - 1]), log[k - 1]);
      LinesSnoc(log, k);
      UntilFinalSnoc(Lines(log[..k - 1]), LineOf(log[k - 1]));
    }
  }

  /**
   When every answer is a prefix of one remote log with rising numbers, in any order and
   with any timeouts, the driver hears the longest prefix shown before the child was
   lost: mapped, each event once, up to the first that ends the task.
   */
  lemma ForwardedIsTheLog(polls: seq<Poll>, log: seq<Json>)
    requires Rising(log) && forall i | 0 <= i < |polls| :: Reports(polls[i], log)
    ensures Heard(polls) <= |log|
    ensures EventsSent(HearAll(START, polls).sent) == UntilFinal(Lines(log[..Heard(polls)]))
    ensures HearAll(START, polls).done <==>
            Broken(polls) || HasFinal(Lines(log[..Heard(polls)]))
  {
    HearingAPrefix(polls, log);
    ConsumedIsUntilFinal(log, Heard(polls));
  }
}

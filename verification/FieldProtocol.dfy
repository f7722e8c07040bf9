/**
  Field events, the commands they are sent as, and the receipts that acknowledge them
  (public/kiosk-queue-protocol-v3.js; the V2 item of public/kiosk-offline-queue-v2.js).
*/
module FieldProtocol {
  import opened Options

  const MAX_SAFE_INTEGER: nat := 9007199254740991

  /** V2 is the legacy kiosk queue, V3 the shared terminal, V4 the owner's personal view. */
  datatype Protocol = V2 | V3 | V4

  datatype EventType = Start | Block | Resume | Complete

  datatype RecordingMode = DeviceDeclared | ServerReceived

  datatype RunState = Scheduled | Shooting | Blocked | Completed | Cancelled

  /** One queued field event; `detail` stands for the V2 reason code and note. */
  datatype Item = Item(
    eventId: string, runId: string, scheduleItemId: string, eventType: EventType,
    expectedRunRevision: nat, expectedScheduleRevision: nat, occurredAt: string, recordingMode: RecordingMode,
    subjectId: string, deviceId: string, resourceId: string, detail: string, localSequence: nat)

  /** The item validators, with identifier and timestamp syntax left out. */
  predicate ValidItem(protocol: Protocol, item: Item) {
    && item.eventId != "" && item.runId != "" && item.scheduleItemId != ""
    && item.expectedRunRevision <= MAX_SAFE_INTEGER
    && item.expectedScheduleRevision <= MAX_SAFE_INTEGER
    && item.localSequence <= MAX_SAFE_INTEGER
    && (protocol != V2 ==> item.eventType in {Start, Complete} && item.detail == "")
    && (protocol == V4 ==> item.recordingMode == DeviceDeclared)
  }

  /** What is posted; `declaredAt` carries recordingMode and occurredAt of a device-declared item. */
  datatype Command = Command(
    eventId: string, runId: string, scheduleItemId: string, eventType: EventType,
    expectedRunRevision: nat, expectedScheduleRevision: nat, declaredAt: Option<string>)

  function CommandOf(item: Item): Command {
    Command(item.eventId, item.runId, item.scheduleItemId, item.eventType, item.expectedRunRevision,
            item.expectedScheduleRevision,
            if item.recordingMode == DeviceDeclared then Some(item.occurredAt) else None)
  }

  datatype Source = KioskOnlineV3 | KioskDeviceDeclaredV3 | OwnerDeviceDeclaredV1 | OtherSource

  /** A RUN_EVENT_APPLIED body with ok === true. */
  datatype Receipt = Receipt(
    eventId: string, runId: string, actor: string, deviceId: string, resourceId: string,
    scheduleRevision: nat, runRevision: nat, resultingState: RunState, source: Source,
    deviceTime: bool, recorded: bool, command: Option<Command>,
    startedAt: Option<string>, completedAt: Option<string>)

  function ExpectedResult(eventType: EventType): RunState {
    if eventType == Start then Shooting else RunState.Completed
  }

  /** matchesFieldReceipt. */
  predicate MatchesReceipt(protocol: Protocol, r: Receipt, item: Item) {
    && r.eventId == item.eventId && r.runId == item.runId
    && r.actor == item.subjectId && r.deviceId == item.deviceId && r.resourceId == item.resourceId
    && r.scheduleRevision == item.expectedScheduleRevision && r.runRevision == item.expectedRunRevision + 1
    && r.resultingState == ExpectedResult(item.eventType)
    && (if item.recordingMode == ServerReceived then r.source == KioskOnlineV3
        else
          && r.source == (if protocol == V4 then OwnerDeviceDeclaredV1 else KioskDeviceDeclaredV3)
          && r.deviceTime && r.recorded
          && r.command == Some(CommandOf(item))
          && (if item.eventType == Start then r.startedAt else r.completedAt) == Some(item.occurredAt))
  }

  /** A receipt made out for an item. */
  function ReceiptFor(protocol: Protocol, item: Item): Receipt {
    var declared := item.recordingMode == DeviceDeclared;
    Receipt(item.eventId, item.runId, item.subjectId, item.deviceId, item.resourceId,
            item.expectedScheduleRevision, item.expectedRunRevision + 1, ExpectedResult(item.eventType),
            if !declared then KioskOnlineV3
            else if protocol == V4 then OwnerDeviceDeclaredV1 else KioskDeviceDeclaredV3,
            declared, true, Some(CommandOf(item)), Some(item.occurredAt), Some(item.occurredAt))
  }

  /**
    The part of an item a receipt pins down. The queue position is private to the device; a
    server-timed receipt says nothing about the schedule item or the local time either.
  */
  function PinnedPart(item: Item): Item {
    if item.recordingMode == DeviceDeclared then item.(localSequence := 0)
    else item.(localSequence := 0, scheduleItemId := "", occurredAt := "")
  }

  /** A receipt that acknowledges one valid item acknowledges another exactly when they agree on that part. */
  lemma ReceiptPinsItem(protocol: Protocol, r: Receipt, a: Item, b: Item)
    requires protocol != V2 && ValidItem(protocol, a) && ValidItem(protocol, b)
    requires MatchesReceipt(protocol, r, a)
    ensures MatchesReceipt(protocol, r, b) <==> PinnedPart(a) == PinnedPart(b)
  {
    if MatchesReceipt(protocol, r, b) {
      assert ExpectedResult(a.eventType) == ExpectedResult(b.eventType);
      assert a.eventType == b.eventType;
    }
  }

  /** Of two receipts for an event the second matches as well exactly when it agrees on all that is tested. */
  lemma MatchingReceiptsAgree(protocol: Protocol, r: Receipt, s: Receipt, item: Item)
    requires protocol != V2 && ValidItem(protocol, item) && MatchesReceipt(protocol, r, item)
    ensures MatchesReceipt(protocol, s, item)
            <==> && s.eventId == r.eventId && s.runId == r.runId && s.actor == r.actor && s.deviceId == r.deviceId
                 && s.resourceId == r.resourceId && s.scheduleRevision == r.scheduleRevision
                 && s.runRevision == r.runRevision && s.resultingState == r.resultingState && s.source == r.source
                 && (item.recordingMode == DeviceDeclared ==>
                       && s.deviceTime == r.deviceTime == true && s.recorded == r.recorded == true
                       && s.command == r.command
                       && (item.eventType == Start ==> s.startedAt == r.startedAt == Some(item.occurredAt))
                       && (item.eventType == Complete ==> s.completedAt == r.completedAt == Some(item.occurredAt)))
  {}

  /** The other half: a device-declared command determines its item up to the binding and the queue position. */
  lemma CommandPinsItem(protocol: Protocol, a: Item, b: Item)
    requires protocol != V2 && ValidItem(protocol, a) && ValidItem(protocol, b)
    requires a.recordingMode == DeviceDeclared
    requires a.subjectId == b.subjectId && a.deviceId == b.deviceId && a.resourceId == b.resourceId
    ensures CommandOf(a) == CommandOf(b) <==> a.(localSequence := 0) == b.(localSequence := 0)
  {
    if CommandOf(a) == CommandOf(b) {
      assert CommandOf(b).declaredAt == Some(a.occurredAt);
    }
  }

  // ---------------------------------------------------------------- the server, as its contract states it

  /** A schedule item's run as the server shows it; a candidate has no run id yet. */
  datatype Run = Run(runId: Option<string>, revision: nat, state: RunState)

  const CANDIDATE: Run := Run(None, 0, Scheduled)

  function NextState(state: RunState, eventType: EventType): Option<RunState> {
    match eventType
    case Start => if state == Scheduled then Some(Shooting) else None
    case Block => if state == Shooting then Some(RunState.Blocked) else None
    case Resume => if state == RunState.Blocked then Some(Shooting) else None
    case Complete => if state == Shooting then Some(RunState.Completed) else None
  }

  /** Compare-and-set on the run revision, the run identity and the state transition. */
  predicate Accepts(run: Run, item: Item) {
    && (run.runId.Some? ==> item.runId == run.runId.value)
    && (run.runId.None? ==> item.eventType == Start)
    && item.expectedRunRevision == run.revision
    && NextState(run.state, item.eventType).Some?
  }

  function Advance(run: Run, item: Item): Run
    requires Accepts(run, item)
  {
    Run(Some(item.runId), run.revision + 1, NextState(run.state, item.eventType).value)
  }

  /** No valid item is beyond acknowledgement, and a matching receipt shows the state the server moved to. */
  lemma SomeReceiptMatches(protocol: Protocol, run: Run, item: Item)
    requires protocol != V2 && ValidItem(protocol, item) && Accepts(run, item)
    ensures MatchesReceipt(protocol, ReceiptFor(protocol, item), item)
    ensures forall r :: MatchesReceipt(protocol, r, item) ==>
              r.resultingState == Advance(run, item).state && r.runRevision == Advance(run, item).revision
  {}

  /** `log` lists the items in the order they were first applied. */
  datatype Server = Server(runs: map<string, Run>, receipts: map<string, Receipt>, log: seq<Item>) {
    function RunOf(scheduleItemId: string): Run {
      if scheduleItemId in runs then runs[scheduleItemId] else CANDIDATE
    }

    /**
      Idempotent by eventId: a known id changes nothing, whatever the command says. What the stored receipt
      says of the event beyond its id is up to the server.
    */
    function Process(item: Item, receipt: Receipt): Server {
      if item.eventId in receipts || !Accepts(RunOf(item.scheduleItemId), item) then this
      else
        Server(runs[item.scheduleItemId := Advance(RunOf(item.scheduleItemId), item)],
               receipts[item.eventId := receipt], log + [item])
    }
  }
}

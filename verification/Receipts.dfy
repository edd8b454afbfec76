/** Idempotent mutation receipts: the records, the replay decision and the store that rewrites them. */
module Receipts {
  import opened Wrappers
  import opened Protocol

  datatype ReceiptIdentity = ReceiptIdentity(environment: string, extension: string, operation: string)

  datatype Phase = Started | Response

  datatype ReceiptRecord = ReceiptRecord(
    requestId: string, fingerprint: string, identity: ReceiptIdentity,
    phase: Phase, response: Option<AdapterResponse>)

  /** One mutation as its caller names it. */
  datatype Call = Call(identity: ReceiptIdentity, requestId: string, fingerprint: string)

  datatype ApplyError =
    | Io
    | BoundToDifferentOperation
    | OutcomeUncertain
    | PendingWithoutExecution
    | AdapterError(message: string)

  type Outcome = Result<AdapterResponse, ApplyError>

  /** Receipts by request id; the digest that names the file is taken as injective. */
  type Files = map<string, ReceiptRecord>

  datatype Launch = Launch(call: Call, previous: Option<AdapterResponse>)

  function Record(call: Call, phase: Phase, response: Option<AdapterResponse>): ReceiptRecord {
    ReceiptRecord(call.requestId, call.fingerprint, call.identity, phase, response)
  }

  function Previous(files: Files, call: Call): Result<Option<ReceiptRecord>, ApplyError> {
    if call.requestId !in files then Success(None)
    else if files[call.requestId].fingerprint == call.fingerprint then Success(Some(files[call.requestId]))
    else Failure(BoundToDifferentOperation)
  }

  function Replayable(record: Option<ReceiptRecord>): Option<AdapterResponse> {
    match record
    case Some(found) =>
      if found.response.Some? && found.response.value.Complete() then found.response else None
    case None => None
  }

  /** The response a retry is handed, or the reason it may not run. */
  function PendingPrevious(record: Option<ReceiptRecord>): Result<Option<AdapterResponse>, ApplyError> {
    match record
    case None => Success(None)
    case Some(found) =>
      if found.response.None? then Failure(OutcomeUncertain)
      else if found.response.value.status.Pending? && found.response.value.executionId.None? then
        Failure(PendingWithoutExecution)
      else Success(found.response)
  }

  function Carried(record: Option<ReceiptRecord>): Option<AdapterResponse> {
    if record.Some? then record.value.response else None
  }

  datatype Decision =
    | Refuse(error: ApplyError)
    | Replay(response: AdapterResponse)
    | Invoke(record: Option<ReceiptRecord>)

  function Decide(files: Files, call: Call): Decision {
    match Previous(files, call)
    case Failure(error) => Refuse(error)
    case Success(record) =>
      if Replayable(record).Some? then Replay(Replayable(record).value)
      else if PendingPrevious(record).Failure? then Refuse(PendingPrevious(record).error)
      else Invoke(record)
  }

  /** The receipts and the answer after one undisturbed call. */
  function Applied(files: Files, call: Call, invoke: Option<AdapterResponse> -> Outcome): (Files, Outcome) {
    match Decide(files, call)
    case Refuse(error) => (files, Failure(error))
    case Replay(response) => (files, Success(response))
    case Invoke(record) =>
      var answer := invoke(Carried(record));
      var phase := if answer.Success? then Response else Started;
      var response := if answer.Success? then Some(answer.value) else Carried(record);
      (files[call.requestId := Record(call, phase, response)], answer)
  }

  /** A write succeeds, fails and leaves the old file, or replaces the file and still reports failure. */
  datatype Write = Done | Lost | Late

  /** How the disk serves one call: the lock and the read, the marker, the response. */
  datatype Disk = Disk(readable: bool, mark: Write, save: Write)

  const SOUND := Disk(true, Done, Done)

  function Put(files: Files, record: ReceiptRecord, write: Write): Files {
    if write.Lost? then files else files[record.requestId := record]
  }

  /** The receipts and the answer after one call, whatever the disk does. */
  function AppliedUnder(files: Files, call: Call, invoke: Option<AdapterResponse> -> Outcome,
                        disk: Disk): (Files, Outcome)
  {
    if !disk.readable then (files, Failure(Io))
    else
      match Decide(files, call)
      case Refuse(error) => (files, Failure(error))
      case Replay(response) => (files, Success(response))
      case Invoke(record) =>
        var marked := Put(files, Record(call, Started, Carried(record)), disk.mark);
        var answer := invoke(Carried(record));
        if !disk.mark.Done? then (marked, Failure(Io))
        else if answer.Failure? then (marked, answer)
        else (Put(marked, Record(call, Response, Some(answer.value)), disk.save),
              if disk.save.Done? then answer else Failure(Io))
  }

  lemma SoundDisk(files: Files, call: Call, invoke: Option<AdapterResponse> -> Outcome)
    ensures AppliedUnder(files, call, invoke, SOUND) == Applied(files, call, invoke)
  {
    if Decide(files, call).Invoke? {
      var record := Decide(files, call).record;
      var marked := files[call.requestId := Record(call, Started, Carried(record))];
      var answer := invoke(Carried(record));
      if answer.Success? {
        assert marked[call.requestId := Record(call, Response, Some(answer.value))]
            == files[call.requestId := Record(call, Response, Some(answer.value))];
      }
    }
  }

  /** Whether the call comes to its marker, and with what on record. */
  predicate Marks(files: Files, call: Call, disk: Disk) {
    disk.readable && Decide(files, call).Invoke?
  }

  /** What a retry is handed is what the record carries, so no answer is dropped on the way. */
  lemma InvokeCarriesRecord(files: Files, call: Call)
    requires Decide(files, call).Invoke?
    ensures Decide(files, call).record == if call.requestId in files then Some(files[call.requestId]) else None
    ensures PendingPrevious(Decide(files, call).record) == Success(Carried(Decide(files, call).record))
    ensures call.requestId in files ==>
              && files[call.requestId].fingerprint == call.fingerprint
              && files[call.requestId].response.Some?
              && !files[call.requestId].response.value.Complete()
  {
  }

  /** A call whose adapter answers so. */
  function Says(response: AdapterResponse): Option<AdapterResponse> -> Outcome {
    (recorded: Option<AdapterResponse>) => Success(response)
  }

  /** A call whose adapter dies. */
  function Dies(): Option<AdapterResponse> -> Outcome {
    (recorded: Option<AdapterResponse>) => Failure(AdapterError("the adapter died"))
  }

  /** A failed answer on record does not stand in the way of another attempt, whether it answers or dies. */
  lemma FailedAttemptIsRetried(files: Files, call: Call, response: AdapterResponse)
    requires call.requestId in files ==>
               files[call.requestId].fingerprint == call.fingerprint && files[call.requestId].response.Some?
               && files[call.requestId].response.value.status.Failed?
    ensures Decide(files, call).Invoke?
    ensures Applied(files, call, Says(response)).0 == files[call.requestId := Record(call, Response, Some(response))]
    ensures call.requestId in files ==>
              Applied(files, call, Dies()).0
              == files[call.requestId := Record(call, Started, files[call.requestId].response)]
  {
  }

  class ReceiptStore {
    var files: Files
    var modified: map<string, nat>
    var clock: nat
    var launches: seq<Launch>

    ghost predicate Valid()
      reads this
    {
      && modified.Keys == files.Keys
      && forall id :: id in modified ==> modified[id] <= clock
    }

    constructor ()
      ensures Valid() && files == map[] && launches == []
    {
      files, modified, clock, launches := map[], map[], 0, [];
    }

    method WriteRecord(record: ReceiptRecord, write: Write) returns (ok: bool)
      requires Valid()
      modifies this`files, this`modified
      ensures Valid() && ok == write.Done?
      ensures files == Put(old(files), record, write)
      ensures modified == if write.Lost? then old(modified) else old(modified)[record.requestId := clock]
    {
      if !write.Lost? {
        files := files[record.requestId := record];
        modified := modified[record.requestId := clock];
      }
      ok := write.Done?;
    }

    method Wait(elapsed: nat)
      requires Valid()
      modifies this`clock
      ensures Valid() && clock == old(clock) + elapsed
    {
      clock := clock + elapsed;
    }

    /** The call under its lock: read, decide, mark, invoke, record. The adapter takes `elapsed`. */
    method ApplyLocked(call: Call, invoke: Option<AdapterResponse> -> Outcome, elapsed: nat, disk: Disk)
      returns (r: Outcome)
      requires Valid()
      modifies this
      ensures Valid()
      ensures (files, r) == AppliedUnder(old(files), call, invoke, disk)
      ensures launches == old(launches) +
                          if Marks(old(files), call, disk) && disk.mark.Done? then
                            [Launch(call, Carried(Decide(old(files), call).record))]
                          else []
      ensures clock == old(clock) + if Marks(old(files), call, disk) && disk.mark.Done? then elapsed else 0
      ensures modified == if !Marks(old(files), call, disk) || disk.mark.Lost? then old(modified)
                          else old(modified)[call.requestId :=
                                               if files[call.requestId].phase.Response? then clock else old(clock)]
    {
      if !disk.readable {
        return Failure(Io);
      }
      var previous := Previous(files, call);
      if previous.Failure? {
        return Failure(previous.error);
      }
      var replay := Replayable(previous.value);
      if replay.Some? {
        return Success(replay.value);
      }
      var pending := PendingPrevious(previous.value);
      if pending.Failure? {
        return Failure(pending.error);
      }
      var ok := WriteRecord(Record(call, Started, Carried(previous.value)), disk.mark);
      if !ok {
        return Failure(Io);
      }
      launches := launches + [Launch(call, pending.value)];
      r := invoke(pending.value);
      clock := clock + elapsed;
      if r.Success? {
        ghost var marked := files;
        ok := WriteRecord(Record(call, Response, Some(r.value)), disk.save);
        assert files == Put(marked, Record(call, Response, Some(r.value)), disk.save);
        assert !disk.save.Lost? ==> modified == old(modified)[call.requestId := clock];
        if !ok {
          return Failure(Io);
        }
      }
    }
  }
}

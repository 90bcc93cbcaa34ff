// The two queues and the ids of the jobs put in them.  A queue keeps finished jobs, and an add
// under an id it has already seen is dropped.

module QueueService {
  import opened SmsMessage

  type JobId = string
  type Uuid = u: string | |u| == 36 witness "00000000-0000-0000-0000-000000000000"

  function RequeueJobId(messageId: Uuid, ms: string, uuid: Uuid): JobId {
    "requeue-" + messageId + "-" + ms + "-" + uuid
  }

  function DeadLetterJobId(messageId: Uuid, ms: string, uuid: Uuid): JobId {
    "dlq-" + messageId + "-" + ms + "-" + uuid
  }

  /** No job was given an id that ends in this UUID. */
  ghost predicate Unused(jobs: map<JobId, Uuid>, uuid: Uuid) {
    forall id | id in jobs && 36 <= |id| :: id[|id| - 36..] != uuid
  }

  /** An id names its message and its draw, and is never the id of an initial job. */
  lemma JobIdsAreTold(messageId: Uuid, ms: string, uuid: Uuid, messageId': Uuid, ms': string, uuid': Uuid)
    ensures RequeueJobId(messageId, ms, uuid) == RequeueJobId(messageId', ms', uuid') ==>
      messageId == messageId' && ms == ms' && uuid == uuid'
    ensures DeadLetterJobId(messageId, ms, uuid) == DeadLetterJobId(messageId', ms', uuid') ==>
      messageId == messageId' && ms == ms' && uuid == uuid'
    ensures RequeueJobId(messageId, ms, uuid) != messageId' && DeadLetterJobId(messageId, ms, uuid) != messageId'
    ensures RequeueJobId(messageId, ms, uuid) != DeadLetterJobId(messageId', ms', uuid')
  {
    var a, a' := RequeueJobId(messageId, ms, uuid), RequeueJobId(messageId', ms', uuid');
    var b, b' := DeadLetterJobId(messageId, ms, uuid), DeadLetterJobId(messageId', ms', uuid');
    assert a[0] == 'r' && b'[0] == 'd';
    assert a[8..44] == messageId && a[45..|a| - 37] == ms && a[|a| - 36..] == uuid;
    assert a'[8..44] == messageId' && a'[45..|a'| - 37] == ms' && a'[|a'| - 36..] == uuid';
    assert b[4..40] == messageId && b[41..|b| - 37] == ms && b[|b| - 36..] == uuid;
    assert b'[4..40] == messageId' && b'[41..|b'| - 37] == ms' && b'[|b'| - 36..] == uuid';
  }

  /** A queue after an add: an id it has seen is left as it is. */
  function Added(jobs: map<JobId, Uuid>, id: JobId, messageId: Uuid): map<JobId, Uuid> {
    if id in jobs then jobs else jobs[id := messageId]
  }

  /** A queue after any number of adds. */
  function AllAdded(jobs: map<JobId, Uuid>, adds: seq<(JobId, Uuid)>): map<JobId, Uuid> {
    if adds == [] then jobs
    else
      var last := adds[|adds| - 1];
      Added(AllAdded(jobs, adds[..|adds| - 1]), last.0, last.1)
  }

  /** The message of the first add under an id. */
  function FirstAdd(adds: seq<(JobId, Uuid)>, id: JobId): Option<Uuid> {
    if adds == [] then None
    else if adds[0].0 == id then Some(adds[0].1)
    else FirstAdd(adds[1..], id)
  }

  lemma {:induction false} FirstAddOfLonger(adds: seq<(JobId, Uuid)>, last: (JobId, Uuid), id: JobId)
    ensures FirstAdd(adds + [last], id)
            == if FirstAdd(adds, id).Some? then FirstAdd(adds, id) else if last.0 == id then Some(last.1) else None
  {
    if adds != [] {
      assert (adds + [last])[1..] == adds[1..] + [last];
      FirstAddOfLonger(adds[1..], last, id);
    }
  }

  /**
   * However often and by whomever a job is asked for, the queue holds one under its id, for the
   * message of the first add; and it holds no job that nobody asked for.
   */
  lemma {:induction false} RepeatedAddsKeepTheFirst(jobs: map<JobId, Uuid>, adds: seq<(JobId, Uuid)>, id: JobId)
    ensures var first := if id in jobs then Some(jobs[id]) else FirstAdd(adds, id);
      && (id in AllAdded(jobs, adds) <==> first.Some?)
      && (first.Some? ==> AllAdded(jobs, adds)[id] == first.value)
  {
    if adds != [] {
      var n := |adds| - 1;
      RepeatedAddsKeepTheFirst(jobs, adds[..n], id);
      FirstAddOfLonger(adds[..n], adds[n], id);
      assert adds == adds[..n] + [adds[n]];
    }
  }

  class QueueService {
    var smsQueue: map<JobId, Uuid>
    var smsDlqQueue: map<JobId, Uuid>

    constructor ()
      ensures smsQueue == map[] && smsDlqQueue == map[]
    {
      smsQueue, smsDlqQueue := map[], map[];
    }

    /** The initial job of a message: however often it is asked for, there is one. */
    method EnqueueSms(messageId: Uuid, jobId: Option<JobId>)
      modifies this`smsQueue
      ensures var id := if jobId.Some? then jobId.value else messageId;
        && smsQueue == Added(old(smsQueue), id, messageId)
        && id in smsQueue
      ensures forall id | id in old(smsQueue) :: id in smsQueue && smsQueue[id] == old(smsQueue)[id]
    {
      var id := if jobId.Some? then jobId.value else messageId;
      if id !in smsQueue { smsQueue := smsQueue[id := messageId]; }
    }

    /** With a UUID not drawn before, a requeue always adds one job and displaces none. */
    method RequeueSms(messageId: Uuid, ms: string, uuid: Uuid)
      requires Unused(smsQueue, uuid)
      modifies this`smsQueue
      ensures |smsQueue| == |old(smsQueue)| + 1
      ensures RequeueJobId(messageId, ms, uuid) !in old(smsQueue)
      ensures smsQueue == old(smsQueue)[RequeueJobId(messageId, ms, uuid) := messageId]
    {
      var id := RequeueJobId(messageId, ms, uuid);
      assert id[|id| - 36..] == uuid;
      EnqueueSms(messageId, Some(id));
      assert smsQueue == old(smsQueue)[id := messageId];
    }

    method EnqueueDeadLetter(messageId: Uuid, ms: string, uuid: Uuid)
      requires Unused(smsDlqQueue, uuid)
      modifies this`smsDlqQueue
      ensures |smsDlqQueue| == |old(smsDlqQueue)| + 1
      ensures DeadLetterJobId(messageId, ms, uuid) !in old(smsDlqQueue)
      ensures smsDlqQueue == old(smsDlqQueue)[DeadLetterJobId(messageId, ms, uuid) := messageId]
    {
      var id := DeadLetterJobId(messageId, ms, uuid);
      assert id[|id| - 36..] == uuid;
      if id !in smsDlqQueue { smsDlqQueue := smsDlqQueue[id := messageId]; }
    }
  }
}

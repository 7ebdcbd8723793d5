/**
 * The job queue as the handlers see it: the sequence of every add made, each
 * a named job with its data and an optional job id. The queue library keeps
 * completed jobs and ignores an add whose job id is already stored; `Stored`
 * gives what it keeps. Claiming, retries and backoff belong to the library
 * and are not modelled; the configured limits are kept as constants.
 */
module Queue {
  import opened Wrappers
  import opened Json

  const SENDMAIL: string := "sendmail"
  const LINK_VERIFIER: string := "link-verifier"

  /** Attempts per job and the initial exponential-backoff delay (src/config.ts). */
  const QUEUE_MAX_ATTEMPTS: nat := 30
  const QUEUE_INITIAL_DELAY_MS: nat := 1000

  datatype Job = Job(name: string, data: Value, jobId: Option<string>)

  /** How a processor ends a job: normally (acknowledged) or by throwing (retried). */
  datatype JobOutcome = Completed | Failed(reason: string)

  class JobQueue {
    var jobs: seq<Job>

    constructor()
      ensures jobs == []
    {
      jobs := [];
    }

    /** `queueClient.add(name, data, { jobId })` */
    method Add(name: string, data: Value, jobId: Option<string>)
      modifies this
      ensures jobs == old(jobs) + [Job(name, data, jobId)]
    {
      jobs := jobs + [Job(name, data, jobId)];
    }
  }

  /** A job with this id is among `jobs`. */
  predicate HasId(jobs: seq<Job>, id: string)
  {
    exists j :: j in jobs && j.jobId == Some(id)
  }

  /** The jobs the queue keeps after a sequence of adds: an add whose id is already stored is ignored. */
  function Stored(adds: seq<Job>): (r: seq<Job>)
    ensures forall j :: j in r ==> j in adds
    ensures |r| <= |adds|
  {
    if adds == [] then []
    else
      var prev := Stored(adds[..|adds| - 1]);
      var last := adds[|adds| - 1];
      if last.jobId.Some? && HasId(prev, last.jobId.value) then prev else prev + [last]
  }

  /** Every job id that was ever added is stored. */
  lemma {:induction false} StoredKeepsIds(adds: seq<Job>)
    ensures forall j :: j in adds && j.jobId.Some? ==> HasId(Stored(adds), j.jobId.value)
  {
    if adds != [] {
      var init := adds[..|adds| - 1];
      var last := adds[|adds| - 1];
      StoredKeepsIds(init);
      assert adds == init + [last];
      forall j | j in adds && j.jobId.Some? ensures HasId(Stored(adds), j.jobId.value) {
        if j in init {
          var k :| k in Stored(init) && k.jobId == j.jobId;
          assert k in Stored(adds);
        } else {
          assert j == last;
          if !HasId(Stored(init), last.jobId.value) {
            assert last in Stored(adds);
          }
        }
      }
    }
  }

  /** Adds whose ids are all stored already change nothing. */
  lemma {:induction false} StoredIgnoresKnownIds(adds: seq<Job>, more: seq<Job>)
    requires forall j :: j in more ==> j.jobId.Some? && HasId(Stored(adds), j.jobId.value)
    ensures Stored(adds + more) == Stored(adds)
    decreases |more|
  {
    if more == [] {
      assert adds + more == adds;
    } else {
      var init := more[..|more| - 1];
      StoredIgnoresKnownIds(adds, init);
      assert (adds + more)[..|adds + more| - 1] == adds + init;
      assert more[|more| - 1] in more;
    }
  }

  /**
   * Adding the same batch twice stores what adding it once does, when every
   * job of the batch carries an id: a redelivered batch is deduplicated.
   */
  lemma RepeatedBatchIgnored(adds: seq<Job>, batch: seq<Job>)
    requires forall j :: j in batch ==> j.jobId.Some?
    ensures Stored(adds + batch + batch) == Stored(adds + batch)
  {
    StoredKeepsIds(adds + batch);
    StoredIgnoresKnownIds(adds + batch, batch);
  }

  /** `queueEmail(queueClient, message, jobId?)`: a job for the sendmail processor. */
  method QueueEmail(q: JobQueue, message: Value, jobId: Option<string>)
    modifies q
    ensures q.jobs == old(q.jobs) + [Job(SENDMAIL, message, jobId)]
  {
    q.Add(SENDMAIL, message, jobId);
  }
}

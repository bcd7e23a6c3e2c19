/** The per-user debounce of `handle_any_file`: each media message is appended
    to its sender's buffer, any job already scheduled under the sender's name is
    removed and a new one is scheduled. When a job fires it pops the whole
    buffer. The 5-second delay is abstract: firing a job is an explicit step. */
module Debounce {

  import opened Media

  /** A scheduled `process_file_batch` job: its name is `process_batch_<owner>`,
      `id` tells successive schedulings under that name apart. */
  datatype Job = Job(owner: UserId, id: nat)

  /** The job queue after `schedule_removal` of every job named after `owner`. */
  function Cancel(jobs: seq<Job>, owner: UserId): (r: seq<Job>)
    ensures |r| <= |jobs|
    ensures forall j :: j in r <==> j in jobs && j.owner != owner
  {
    if jobs == [] then []
    else
      var last := jobs[|jobs| - 1];
      Cancel(jobs[..|jobs| - 1], owner) + (if last.owner == owner then [] else [last])
  }

  /** At most one scheduled job per owner. */
  ghost predicate OnePerOwner(jobs: seq<Job>) {
    forall i, j :: 0 <= i < j < |jobs| ==> jobs[i].owner != jobs[j].owner
  }

  ghost predicate Pending(jobs: seq<Job>, owner: UserId) {
    exists j :: j in jobs && j.owner == owner
  }

  /** Cancelling keeps the queue free of duplicate owners. */
  lemma {:induction false} CancelKeepsOnePerOwner(jobs: seq<Job>, owner: UserId)
    requires OnePerOwner(jobs)
    ensures OnePerOwner(Cancel(jobs, owner))
  {
    if jobs != [] {
      var init, last := jobs[..|jobs| - 1], jobs[|jobs| - 1];
      assert OnePerOwner(init);
      CancelKeepsOnePerOwner(init, owner);
      var r := Cancel(jobs, owner);
      if last.owner != owner {
        var c := Cancel(init, owner);
        assert r == c + [last];
        forall i | 0 <= i < |c| ensures c[i].owner != last.owner {
          assert c[i] in init;
          var k :| 0 <= k < |init| && init[k] == c[i];
          assert jobs[k] == c[i];
        }
      }
    }
  }

  /** The buffer `chat_data` holds for an owner; none reads as empty. */
  function Buffered(buffers: map<UserId, seq<Message>>, owner: UserId): seq<Message> {
    if owner in buffers then buffers[owner] else []
  }

  predicate AllFrom(messages: seq<Message>, owner: UserId) {
    forall i :: 0 <= i < |messages| ==> messages[i].sender == owner
  }

  /** One job and one non-empty buffer per owner, living and dying together;
      a buffer holds only its owner's messages. */
  ghost predicate Debounced(buffers: map<UserId, seq<Message>>, jobs: seq<Job>, nextJob: nat) {
    OnePerOwner(jobs)
    && (forall j :: j in jobs ==> j.id < nextJob)
    && (forall u :: u in buffers <==> Pending(jobs, u))
    && (forall u :: u in buffers ==> buffers[u] != [])
    && (forall u :: u in buffers ==> AllFrom(buffers[u], u))
  }

  /** `schedule_removal` of every job in the queue named after `owner`. */
  method CancelJobs(jobs: seq<Job>, owner: UserId) returns (kept: seq<Job>)
    ensures kept == Cancel(jobs, owner)
  {
    kept := [];
    var i := 0;
    while i < |jobs|
      invariant 0 <= i <= |jobs|
      invariant kept == Cancel(jobs[..i], owner)
    {
      assert jobs[..i + 1][..i] == jobs[..i];
      if jobs[i].owner != owner {
        kept := kept + [jobs[i]];
      }
      i := i + 1;
    }
    assert jobs[..|jobs|] == jobs;
  }

  /** Submitting keeps one job and one buffer per owner. */
  lemma SubmitKeepsDebounced(buffers: map<UserId, seq<Message>>, jobs: seq<Job>, nextJob: nat, msg: Message)
    requires Debounced(buffers, jobs, nextJob)
    ensures Debounced(buffers[msg.sender := Buffered(buffers, msg.sender) + [msg]],
                      Cancel(jobs, msg.sender) + [Job(msg.sender, nextJob)], nextJob + 1)
  {
    var owner := msg.sender;
    var jobs' := Cancel(jobs, owner) + [Job(owner, nextJob)];
    var buffers' := buffers[owner := Buffered(buffers, owner) + [msg]];
    CancelKeepsOnePerOwner(jobs, owner);
    assert forall u :: Pending(jobs', u) <==> u == owner || Pending(jobs, u) by {
      forall u ensures Pending(jobs', u) <==> u == owner || Pending(jobs, u) {
        if u != owner && Pending(jobs, u) {
          var j :| j in jobs && j.owner == u;
          assert j in jobs';
        }
        if u == owner {
          assert jobs'[|jobs'| - 1] == Job(owner, nextJob);
        }
      }
    }
    assert AllFrom(buffers'[owner], owner);
  }

  /** Firing a scheduled job keeps one job and one buffer per owner. */
  lemma FireKeepsDebounced(buffers: map<UserId, seq<Message>>, jobs: seq<Job>, nextJob: nat, owner: UserId)
    requires Debounced(buffers, jobs, nextJob)
    ensures Debounced(buffers - {owner}, Cancel(jobs, owner), nextJob)
  {
    CancelKeepsOnePerOwner(jobs, owner);
    var jobs' := Cancel(jobs, owner);
    forall u ensures Pending(jobs', u) <==> u != owner && Pending(jobs, u) {
      if u != owner && Pending(jobs, u) {
        var j :| j in jobs && j.owner == u;
        assert j in jobs';
      }
    }
  }

  class Aggregator {
    /** `chat_data["file_batch_<owner>"]` for every owner with one. */
    var buffers: map<UserId, seq<Message>>
    /** The jobs still scheduled in the job queue, in scheduling order. */
    var jobs: seq<Job>
    var nextJob: nat

    ghost predicate Valid()
      reads this
    {
      Debounced(buffers, jobs, nextJob)
    }

    constructor ()
      ensures Valid() && buffers == map[] && jobs == [] && nextJob == 0
    {
      buffers, jobs, nextJob := map[], [], 0;
    }

    /** `handle_any_file`: append the message to its sender's buffer, remove the
        sender's scheduled jobs and schedule a fresh one. */
    method Submit(msg: Message)
      requires Valid()
      modifies this
      ensures Valid()
      ensures buffers == old(buffers)[msg.sender := Buffered(old(buffers), msg.sender) + [msg]]
      ensures jobs == Cancel(old(jobs), msg.sender) + [Job(msg.sender, old(nextJob))]
      ensures nextJob == old(nextJob) + 1
    {
      var owner := msg.sender;
      var kept := CancelJobs(jobs, owner);
      SubmitKeepsDebounced(buffers, jobs, nextJob, msg);
      buffers := buffers[owner := Buffered(buffers, owner) + [msg]];
      jobs := kept + [Job(owner, nextJob)];
      nextJob := nextJob + 1;
    }

    /** `process_file_batch` starting: a job that was removed never runs; a
        scheduled one leaves the queue and pops its owner's whole buffer. */
    method Fire(job: Job) returns (batch: Option<seq<Message>>)
      requires Valid()
      modifies this
      ensures Valid() && nextJob == old(nextJob)
      ensures job !in old(jobs) ==> batch == None && buffers == old(buffers) && jobs == old(jobs)
      ensures job in old(jobs) ==>
                job.owner in old(buffers)
                && batch == Some(old(buffers)[job.owner])
                && buffers == old(buffers) - {job.owner}
                && jobs == Cancel(old(jobs), job.owner)
    {
      if job !in jobs {
        return None;
      }
      var owner := job.owner;
      assert Pending(jobs, owner);
      FireKeepsDebounced(buffers, jobs, nextJob, owner);
      var messages := Buffered(buffers, owner);
      buffers := buffers - {owner};
      jobs := Cancel(jobs, owner);
      batch := Some(messages);
    }
  }

  /** Cancelling an owner's only job empties a queue holding nothing else. */
  lemma CancelOwnJob(owner: UserId, id: nat)
    ensures Cancel([Job(owner, id)], owner) == []
  {
    assert [Job(owner, id)][..0] == [];
  }

  /** Three messages in one burst come out as one batch in arrival order, and
      the jobs their earlier submissions scheduled never run. */
  method BurstScenario(m1: Message, m2: Message, m3: Message)
    returns (stale: Option<seq<Message>>, burst: Option<seq<Message>>)
    requires m1.sender == m2.sender == m3.sender
    ensures stale == None
    ensures burst == Some([m1, m2, m3])
  {
    var agg := new Aggregator();
    var owner := m1.sender;
    agg.Submit(m1);
    assert agg.buffers[owner] == [m1];
    CancelOwnJob(owner, 0);
    agg.Submit(m2);
    assert agg.buffers[owner] == [m1, m2];
    CancelOwnJob(owner, 1);
    agg.Submit(m3);
    assert agg.buffers[owner] == [m1, m2, m3] && agg.jobs == [Job(owner, 2)];
    stale := agg.Fire(Job(owner, 1));
    burst := agg.Fire(Job(owner, 2));
  }

  /** A message submitted after the batch fired starts a new batch. */
  method QuietGapScenario(m1: Message, m2: Message)
    returns (first: Option<seq<Message>>, second: Option<seq<Message>>)
    requires m1.sender == m2.sender
    ensures first == Some([m1])
    ensures second == Some([m2])
  {
    var agg := new Aggregator();
    var owner := m1.sender;
    agg.Submit(m1);
    assert agg.buffers[owner] == [m1] && agg.jobs == [Job(owner, 0)];
    first := agg.Fire(Job(owner, 0));
    CancelOwnJob(owner, 0);
    assert owner !in agg.buffers && agg.jobs == [];
    agg.Submit(m2);
    assert agg.buffers[owner] == [m2] && agg.jobs == [Job(owner, 1)];
    second := agg.Fire(Job(owner, 1));
  }
}

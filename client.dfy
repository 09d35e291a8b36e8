/** The unattended upload client: a folder watcher feeding a job queue that
    runs one upload at a time, in push order; each reply is classified, the
    totals are bumped, the file is deleted on success, and the job's
    completion callback frees the queue for the next job. */
module UploadClient {
  import opened Wrappers
  import opened Paths
  import opened Response
  import opened Counters
  import opened Status

  /** How one reply was handled. `DeleteThrew`: the reply was a success but
      `fs.unlinkSync` threw, so the completion callback was never reached. */
  datatype Outcome = Uploaded | Rejected | DeleteThrew

  class Client {
    /** The watched folder, `path.resolve('in')`. */
    const inFolder: string
    /** Whether the status notifier was switched on at start-up. */
    const notifierOn: bool

    /** Jobs pushed and not yet started, oldest first; a job is its file's path. */
    var pending: seq<string>
    /** The one job running (the queue's concurrency is 1). */
    var inFlight: Option<string>
    /** The files in the watched folder. */
    var files: set<string>
    /** Uploads the endpoint accepted. */
    var processed: nat
    /** Uploads that failed. */
    var failed: nat
    /** A delete threw inside the reply handler: the running job never
        signals completion, so the queue never moves again. */
    var stalled: bool

    /** Every job ever pushed, in push order. */
    ghost var pushed: seq<string>
    /** Every job ever started, in start order. */
    ghost var started: seq<string>
    /** The classification of every reply so far, in reply order. */
    ghost var replies: seq<bool>

    /** Jobs whose completion callback has run. */
    ghost function Completed(): nat
      reads this
      requires |started| > 0 || inFlight.None?
    {
      |started| - (if inFlight.Some? then 1 else 0)
    }

    /** The queue discipline and the bookkeeping; `awaiting` says whether the
        running job is still waiting for its reply. */
    ghost predicate Books(awaiting: bool)
      reads this
    {
      && IsAbsolute(inFolder)
      // each job is the resolved, absolute path of a watched file
      && (forall i :: 0 <= i < |pushed| ==> IsAbsolute(pushed[i]))
      // jobs start in the order they were pushed, and the rest still wait
      && |started| <= |pushed| && started == pushed[..|started|] && pending == pushed[|started|..]
      // the single slot holds the job started last
      && (inFlight.Some? ==> |started| > 0 && inFlight.value == started[|started| - 1])
      // every started job has had its reply, except one still running
      && |replies| + (if awaiting then 1 else 0) == |started|
      && (stalled ==> inFlight.Some? && |replies| > 0 && replies[|replies| - 1])
      // the totals count the replies
      && processed == CountSuccess(replies) && failed == CountFailure(replies)
    }

    /** `Books` in a state reached between events (no auto-start yet). */
    ghost predicate Consistent()
      reads this
    {
      Books(inFlight.Some? && !stalled)
    }

    /** The object invariant: `Consistent` plus auto-start, so no job waits
        while the slot is free. */
    ghost predicate Valid()
      reads this
    {
      Consistent() && (inFlight.None? ==> pending == [])
    }

    /** Start-up: the folder is resolved from the working directory, the
        queue is empty, the totals are zero, and the notifier is switched on
        by the environment. */
    constructor (cwd: string, env: map<string, string>, present: set<string>)
      requires IsAbsolute(cwd)
      ensures Valid()
      ensures inFolder == Resolve(cwd, "in") && notifierOn == NotifierEnabled(env)
      ensures pending == [] && inFlight == None && files == present
      ensures processed == 0 && failed == 0 && !stalled
      ensures pushed == [] && started == [] && replies == []
    {
      inFolder := Resolve(cwd, "in");
      notifierOn := NotifierEnabled(env);
      pending, inFlight, files := [], None, present;
      processed, failed, stalled := 0, 0, false;
      pushed, started, replies := [], [], [];
    }

    /** The queue's own start: with the slot free, the oldest waiting job
        begins. Push and the completion callback both call it (auto-start). */
    method Start()
      requires Consistent()
      modifies this
      ensures Valid()
      ensures old(inFlight).None? && old(pending) != [] ==>
        inFlight == Some(old(pending)[0]) && pending == old(pending)[1..]
        && started == old(started) + [old(pending)[0]]
      ensures old(inFlight).None? && old(pending) != [] ==>
        files == old(files) && processed == old(processed) && failed == old(failed)
        && stalled == old(stalled) && pushed == old(pushed) && replies == old(replies)
      ensures old(inFlight).Some? || old(pending) == [] ==> unchanged(this)
    {
      if inFlight.None? && pending != [] {
        inFlight := Some(pending[0]);
        started := started + [pending[0]];
        pending := pending[1..];
      }
    }

    /** The watcher's 'add' handler: push one job for the resolved path. */
    method Add(name: string)
      requires Valid()
      modifies this
      ensures Valid()
      ensures pushed == old(pushed) + [Resolve(inFolder, name)]
      ensures old(inFlight).None? ==>
        inFlight == Some(Resolve(inFolder, name)) && pending == []
        && started == old(started) + [Resolve(inFolder, name)]
      ensures old(inFlight).Some? ==>
        inFlight == old(inFlight) && pending == old(pending) + [Resolve(inFolder, name)]
        && started == old(started)
      ensures files == old(files) && processed == old(processed) && failed == old(failed)
      ensures stalled == old(stalled) && replies == old(replies)
    {
      var source := Resolve(inFolder, name);
      pending := pending + [source];
      pushed := pushed + [source];
      Start();
    }

    /** A file shows up in the watched folder and the watcher reports it,
        unless it is the ignored metadata file. */
    method Watch(name: string)
      requires Valid()
      modifies this
      ensures Valid()
      ensures files == old(files) + {Resolve(inFolder, name)}
      ensures IsIgnored(Resolve(inFolder, name)) ==>
        pushed == old(pushed) && pending == old(pending) && inFlight == old(inFlight)
        && started == old(started)
      ensures !IsIgnored(Resolve(inFolder, name)) ==> pushed == old(pushed) + [Resolve(inFolder, name)]
      ensures !IsIgnored(Resolve(inFolder, name)) && old(inFlight).None? ==>
        inFlight == Some(Resolve(inFolder, name)) && pending == []
        && started == old(started) + [Resolve(inFolder, name)]
      ensures !IsIgnored(Resolve(inFolder, name)) && old(inFlight).Some? ==>
        inFlight == old(inFlight) && pending == old(pending) + [Resolve(inFolder, name)]
        && started == old(started)
      ensures processed == old(processed) && failed == old(failed)
      ensures stalled == old(stalled) && replies == old(replies)
    {
      var source := Resolve(inFolder, name);
      files := files + {source};
      if !IsIgnored(source) {
        Add(name);
      }
    }

    /** The reply to the running upload arrives. A success bumps `processed`
        and deletes the file; anything else bumps `failed` and leaves the
        folder alone. The callback then frees the slot and the next job
        starts, unless the delete threw (the file was already gone, or the
        system refused, `unlinkDenied`), in which case the callback is never
        reached and the job holds the slot for good. */
    method Complete(body: Option<string>, unlinkDenied: bool) returns (outcome: Outcome)
      requires Valid() && inFlight.Some? && !stalled
      modifies this
      ensures Valid()
      ensures outcome == (if !IsSuccess(body) then Rejected
                          else if old(inFlight).value in old(files) && !unlinkDenied then Uploaded
                          else DeleteThrew)
      ensures replies == old(replies) + [IsSuccess(body)]
      ensures IsSuccess(body) ==> processed == old(processed) + 1 && failed == old(failed)
      ensures !IsSuccess(body) ==> failed == old(failed) + 1 && processed == old(processed)
      ensures outcome == Uploaded ==> files == old(files) - {old(inFlight).value}
      ensures outcome != Uploaded ==> files == old(files)
      ensures outcome == DeleteThrew ==>
        stalled && inFlight == old(inFlight) && pending == old(pending) && started == old(started)
      ensures outcome != DeleteThrew ==> !stalled
      ensures outcome != DeleteThrew && old(pending) == [] ==>
        inFlight == None && pending == [] && started == old(started)
      ensures outcome != DeleteThrew && old(pending) != [] ==>
        inFlight == Some(old(pending)[0]) && pending == old(pending)[1..]
        && started == old(started) + [old(pending)[0]]
      ensures pushed == old(pushed)
    {
      var file := inFlight.value;
      var ok := IsSuccess(body);
      CountsAppend(replies, ok);
      replies := replies + [ok];
      if ok {
        processed := processed + 1;
        if file !in files || unlinkDenied {
          stalled := true;
          return DeleteThrew;
        }
        files := files - {file};
        outcome := Uploaded;
      } else {
        failed := failed + 1;
        outcome := Rejected;
      }
      Callback();
    }

    /** The running job's completion callback: the slot is freed and the
        queue starts its next job. */
    method Callback()
      requires Books(false) && inFlight.Some? && !stalled
      modifies this
      ensures Valid() && !stalled
      ensures old(pending) == [] ==> inFlight == None && pending == [] && started == old(started)
      ensures old(pending) != [] ==>
        inFlight == Some(old(pending)[0]) && pending == old(pending)[1..]
        && started == old(started) + [old(pending)[0]]
      ensures files == old(files) && processed == old(processed) && failed == old(failed)
      ensures pushed == old(pushed) && replies == old(replies)
    {
      inFlight := None;
      Start();
    }

    /** Each reply raises exactly one total, so `processed + failed` is the
        number of jobs whose callback ran, plus the one whose delete threw. */
    lemma Accounting()
      requires Valid()
      ensures processed + failed == Completed() + (if stalled then 1 else 0)
    {
      CountsPartition(replies);
    }

    /** One firing of the status timer: nothing when the notifier is off,
        otherwise a message that reports the current totals. */
    method Tick() returns (msg: Option<string>)
      ensures msg.Some? <==> notifierOn
      ensures msg.Some? ==> ParseStatus(msg.value) == Some((processed, failed))
    {
      if notifierOn {
        StatusRoundTrip(processed, failed);
        msg := Some(StatusBody(processed, failed));
      } else {
        msg := None;
      }
    }
  }

  /** Two photos arrive in an empty folder; the endpoint accepts the first
      and rejects the second; nothing configures the notifier. The first is
      uploaded and deleted before the second starts, the second stays, each
      total ends at one, and the status timer sends nothing. */
  method TwoPhotoScenario() returns (processed: nat, failed: nat, files: set<string>, msg: Option<string>)
    ensures processed == 1 && failed == 1
    ensures files == {"/booth/in/b.jpg"}
    ensures msg == None
  {
    var c := new Client("/booth", map[], {});
    assert c.inFolder == "/booth/in";
    c.Watch("/booth/in/a.jpg");
    c.Watch("/booth/in/b.jpg");
    assert c.inFlight == Some("/booth/in/a.jpg") && c.pending == ["/booth/in/b.jpg"];
    var first := c.Complete(Some(SuccessBody), false);
    assert first == Uploaded && c.inFlight == Some("/booth/in/b.jpg");
    var second := c.Complete(Some("Error, photo rejected."), false);
    assert second == Rejected && c.inFlight == None;
    msg := c.Tick();
    processed, failed, files := c.processed, c.failed, c.files;
  }
}

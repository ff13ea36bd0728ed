/** The worker's registry of running jobs, and what a command on job:control does to it. */
module ControlSubscriber {
  import opened Domain

  type JobId = string

  /** A running job's handle; its abort has fired exactly when the mode is set. */
  class ControlledJob {
    var mode: Option<Mode>
    var aborted: bool

    constructor ()
      ensures mode == None && !aborted
    {
      mode, aborted := None, false;
    }

    ghost predicate Valid()
      reads this
    {
      aborted <==> mode.Some?
    }
  }

  /** What the wire schema accepts; everything else is malformed. */
  datatype Message = Command(action: Mode, jobId: JobId) | Malformed

  predicate Acceptable(m: Message) {
    m.Command? && (m.action == Cancel || m.action == Pause) && m.jobId != ""
  }

  class Subscriber {
    var registry: map<JobId, ControlledJob>

    constructor ()
      ensures registry == map[]
    {
      registry := map[];
    }

    ghost predicate Valid()
      reads this, registry.Values
    {
      forall j | j in registry :: registry[j].Valid()
    }

    /** A fresh handle replaces whatever was registered under the id. */
    method Register(jobId: JobId) returns (entry: ControlledJob)
      requires Valid()
      modifies this
      ensures fresh(entry) && entry.mode == None && !entry.aborted
      ensures registry == old(registry)[jobId := entry] && Valid()
    {
      entry := new ControlledJob();
      registry := registry[jobId := entry];
    }

    method Unregister(jobId: JobId)
      requires Valid()
      modifies this
      ensures registry == old(registry) - {jobId} && Valid()
    {
      registry := registry - {jobId};
    }

    /**
     * A command reaches the registered job of that id and no other; the last command
     * decides the mode. Unknown ids and malformed messages change nothing.
     */
    method HandleMessage(message: Message)
      requires Valid()
      modifies registry.Values
      ensures registry == old(registry) && Valid()
      ensures if Acceptable(message) && message.jobId in registry
              then registry[message.jobId].mode == Some(message.action) && registry[message.jobId].aborted
              else forall e | e in registry.Values :: e.mode == old(e.mode) && e.aborted == old(e.aborted)
      ensures Acceptable(message) ==>
        forall j | j in registry && (message.jobId in registry ==> registry[j] != registry[message.jobId]) ::
          registry[j].mode == old(registry[j].mode) && registry[j].aborted == old(registry[j].aborted)
    {
      if !Acceptable(message) { return; }
      if message.jobId !in registry { return; }
      var entry := registry[message.jobId];
      entry.mode := Some(message.action);
      entry.aborted := true;
    }
  }

  /** The drain hook: a command that has already fired keeps its mode. */
  method DrainAll(entries: seq<ControlledJob>)
    requires forall e | e in entries :: e.Valid()
    modifies entries
    ensures forall e | e in entries :: e.Valid() && e.aborted
    ensures forall e | e in entries :: e.mode == if old(e.mode) == None then Some(Shutdown) else old(e.mode)
  {
    for k := 0 to |entries|
      invariant forall e | e in entries :: e.Valid()
      invariant forall e | e in entries[..k] ::
        e.aborted && e.mode == if old(e.mode) == None then Some(Shutdown) else old(e.mode)
      invariant forall e | e in entries && e !in entries[..k] :: e.mode == old(e.mode)
    {
      assert entries[..k + 1] == entries[..k] + [entries[k]];
      if entries[k].mode == None { entries[k].mode := Some(Shutdown); }
      entries[k].aborted := true;
    }
    assert entries[..|entries|] == entries;
  }
}

/** The in-memory notifier: per task, a list of channels that hold at most one signal. */
module Notifier {
  import opened Basics

  class Channel {
    var full: bool

    constructor ()
      ensures !full
    {
      full := false;
    }

    /** A send that gives up when the buffer is full. */
    method Offer()
      modifies this
      ensures full
    {
      if !full {
        full := true;
      }
    }

    /** Takes the signal, if there is one. */
    method Receive() returns (ok: bool)
      modifies this
      ensures ok == old(full) && !full
    {
      ok := full;
      full := false;
    }
  }

  datatype Topic = Topic(tenant: Id, task: Id)

  class Notifier {
    var subscribers: map<Topic, seq<Channel>>

    constructor ()
      ensures subscribers == map[]
    {
      subscribers := map[];
    }

    ghost function Listeners(t: Topic): seq<Channel>
      reads this
    {
      if t in subscribers then subscribers[t] else []
    }

    /** No channel is on the list twice, nor on two lists. */
    ghost predicate Valid()
      reads this
    {
      && (forall t, i, j :: t in subscribers && 0 <= i < j < |subscribers[t]| ==> subscribers[t][i] != subscribers[t][j])
      && (forall t, u, i, j :: t in subscribers && u in subscribers && t != u && 0 <= i < |subscribers[t]| && 0 <= j < |subscribers[u]|
            ==> subscribers[t][i] != subscribers[u][j])
    }

    /** Leaves every listener of the task with a signal and no other channel touched; it never waits. */
    method Notify(tenant: Id, task: Id) returns (ok: bool)
      modifies Listeners(Topic(tenant, task))
      ensures ok == (tenant != "" && task != "")
      ensures ok ==> forall c :: c in Listeners(Topic(tenant, task)) ==> c.full
      ensures !ok ==> forall c :: c in Listeners(Topic(tenant, task)) ==> c.full == old(c.full)
    {
      if tenant == "" || task == "" {
        return false;
      }
      var t := Topic(tenant, task);
      var listeners := if t in subscribers then subscribers[t] else [];
      var i := 0;
      while i < |listeners|
        invariant i <= |listeners|
        invariant forall j :: 0 <= j < i ==> listeners[j].full
      {
        listeners[i].Offer();
        i := i + 1;
      }
      return true;
    }

    /** Adds an empty channel to the task's list. */
    method Subscribe(tenant: Id, task: Id) returns (r: Result<Channel>)
      requires Valid()
      modifies this
      ensures tenant == "" || task == "" ==> r == Failure(InvalidArgument) && subscribers == old(subscribers)
      ensures tenant != "" && task != "" ==>
                && r.Success? && fresh(r.value) && !r.value.full
                && subscribers == old(subscribers)[Topic(tenant, task) := old(Listeners(Topic(tenant, task))) + [r.value]]
      ensures Valid()
    {
      if tenant == "" || task == "" {
        return Failure(InvalidArgument);
      }
      var channel := new Channel();
      var t := Topic(tenant, task);
      var listeners := if t in subscribers then subscribers[t] else [];
      subscribers := subscribers[t := listeners + [channel]];
      return Success(channel);
    }
  }
}

// Balena Cloud: the service handler's registry of coordinators and its
// service-call guards (services.py).

module BalenaServices {
  import opened Common
  import opened BalenaCoordinator

  /** The six services of the integration, in registration order. */
  const ServiceNames: seq<string> := [
    "restart_application", "reboot_device", "shutdown_device",
    "update_environment", "enable_device_url", "disable_device_url"]

  /** The first entry, in registration order, whose coordinator caches the device. */
  function OwnerIn(order: seq<string>, coordinators: map<string, Coordinator>, uuid: string): (r: Option<string>)
    reads set e | e in coordinators :: coordinators[e]
    ensures r.Some? ==> r.value in order && r.value in coordinators && uuid in coordinators[r.value].devices
    ensures r.None? ==> forall e :: e in order && e in coordinators ==> uuid !in coordinators[e].devices
  {
    if |order| == 0 then None
    else if order[0] in coordinators && uuid in coordinators[order[0]].devices then Some(order[0])
    else OwnerIn(order[1..], coordinators, uuid)
  }

  /** `BalenaCloudServiceHandler`: the coordinators by entry id, in insertion order. */
  class ServiceHandler {
    var order: seq<string>
    var coordinators: map<string, Coordinator>

    ghost predicate Valid()
      reads this
    {
      NoDuplicates(order) && (forall e :: e in order <==> e in coordinators)
    }

    constructor()
      ensures Valid() && order == [] && coordinators == map[]
    {
      order := [];
      coordinators := map[];
    }

    /** `register_coordinator`: a known entry keeps its place and gets the new coordinator. */
    method Register(entryId: string, c: Coordinator)
      requires Valid()
      modifies this
      ensures Valid()
      ensures coordinators == old(coordinators)[entryId := c]
      ensures order == if entryId in old(coordinators) then old(order) else old(order) + [entryId]
    {
      if entryId !in coordinators {
        order := order + [entryId];
      }
      coordinators := coordinators[entryId := c];
    }

    /** `unregister_coordinator`: removes the entry; an unknown id changes nothing. */
    method Unregister(entryId: string)
      requires Valid()
      modifies this
      ensures Valid()
      ensures coordinators == old(coordinators) - {entryId}
      ensures entryId !in old(coordinators) ==> order == old(order)
      ensures forall e :: e in order <==> e in old(order) && e != entryId
      ensures entryId in old(coordinators) ==>
        exists i :: 0 <= i < |old(order)| && old(order)[i] == entryId &&
          order == old(order)[..i] + old(order)[i + 1..]
    {
      if entryId in coordinators {
        var i := IndexOf(order, entryId);
        RemoveKeepsDistinct(order, i);
        order := order[..i] + order[i + 1..];
      }
      coordinators := coordinators - {entryId};
    }

    function Owner(uuid: string): Option<string>
      reads this, set e | e in coordinators :: coordinators[e]
    {
      OwnerIn(order, coordinators, uuid)
    }

    /** `get_coordinator_for_device`: a search in registration order. */
    method CoordinatorFor(uuid: string) returns (c: Option<Coordinator>)
      requires Valid()
      ensures c.Some? <==> Owner(uuid).Some?
      ensures c.Some? ==> c.value == coordinators[Owner(uuid).value] && uuid in c.value.devices
    {
      var i := 0;
      while i < |order|
        invariant 0 <= i <= |order|
        invariant OwnerIn(order, coordinators, uuid) == OwnerIn(order[i..], coordinators, uuid)
      {
        var e := order[i];
        if uuid in coordinators[e].devices {
          return Some(coordinators[e]);
        }
        assert order[i..][1..] == order[i + 1..];
        i := i + 1;
      }
      return None;
    }

    /**
     * A device action handler (restart, reboot, shutdown, environment, URL):
     * with no coordinator owning the device it returns without any action;
     * otherwise the owner's guarded action runs.
     */
    method HandleAction(uuid: string, apiResult: bool, refreshOnSuccess: bool)
      returns (actionRun: bool, apiCalled: bool, refreshed: bool)
      requires Valid()
      ensures actionRun <==> Owner(uuid).Some?
      ensures apiCalled ==> actionRun
      ensures actionRun ==> apiCalled && refreshed == (refreshOnSuccess && apiResult)
      ensures !actionRun ==> !refreshed
    {
      var c := CoordinatorFor(uuid);
      if c.None? {
        return false, false, false;
      }
      var result;
      result, apiCalled, refreshed := c.value.RunAction(uuid, apiResult, refreshOnSuccess);
      actionRun := true;
    }
  }

  function IndexOf(s: seq<string>, x: string): (i: nat)
    requires x in s
    ensures i < |s| && s[i] == x
  {
    if s[0] == x then 0 else 1 + IndexOf(s[1..], x)
  }

  lemma RemoveKeepsDistinct(s: seq<string>, i: nat)
    requires NoDuplicates(s) && i < |s|
    ensures NoDuplicates(s[..i] + s[i + 1..])
    ensures forall e :: e in s[..i] + s[i + 1..] <==> e in s && e != s[i]
  {
    var r := s[..i] + s[i + 1..];
    forall e | e in s && e != s[i]
      ensures e in r
    {
      var k :| 0 <= k < |s| && s[k] == e;
      if k < i {
        assert r[k] == e;
      } else {
        assert r[k - 1] == e;
      }
    }
  }

  /** `async_setup_services`: the services not yet registered, in order. */
  method SetupServices(registered: set<string>) returns (added: seq<string>)
    ensures forall n :: n in added <==> n in ServiceNames && n !in registered
    ensures NoDuplicates(added)
  {
    added := [];
    var i := 0;
    while i < |ServiceNames|
      invariant 0 <= i <= |ServiceNames|
      invariant forall n :: n in added <==> n in ServiceNames[..i] && n !in registered
      invariant NoDuplicates(added)
    {
      var name := ServiceNames[i];
      assert ServiceNames[..i + 1] == ServiceNames[..i] + [name];
      if name !in registered {
        added := added + [name];
      }
      i := i + 1;
    }
    assert ServiceNames[..i] == ServiceNames;
  }

  /** `async_remove_services`: the registered services among the six, in order. */
  method RemoveServices(registered: set<string>) returns (removed: seq<string>)
    ensures forall n :: n in removed <==> n in ServiceNames && n in registered
    ensures NoDuplicates(removed)
  {
    removed := [];
    var i := 0;
    while i < |ServiceNames|
      invariant 0 <= i <= |ServiceNames|
      invariant forall n :: n in removed <==> n in ServiceNames[..i] && n in registered
      invariant NoDuplicates(removed)
    {
      var name := ServiceNames[i];
      assert ServiceNames[..i + 1] == ServiceNames[..i] + [name];
      if name in registered {
        removed := removed + [name];
      }
      i := i + 1;
    }
    assert ServiceNames[..i] == ServiceNames;
  }
}

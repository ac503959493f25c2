/** A cluster as the playbooks see it through internal/k8sclient: deployments, a clock,
    and an API each of whose calls may fail, take time, and read anything for status. */
module Cluster {
  import opened Wrappers

  datatype Key = Key(namespace: string, name: string)

  /** spec.replicas is a pointer: None is nil, which Kubernetes reads as 1. */
  datatype Deployment = Deployment(replicas: Option<int>, rollouts: nat, memory: int)

  /** How one API call goes: its error, the seconds it takes, and the status it reads -
      ready replicas, whether the pod is gone, the Deployment owning a ReplicaSet. `done`
      is the caller's context. */
  datatype Fate = Fate(err: Option<string>, latency: nat, ready: nat, podGone: bool, owner: Option<string>, done: bool)

  /** fate(i) is how call number i will go, so every failure pattern is a world. */
  datatype World = World(deployments: map<Key, Deployment>, now: nat, calls: nat, fate: nat -> Fate)

  datatype Replied<T> = Replied(world: World, result: Result<T, string>)

  function Upcoming(w: World): Fate { w.fate(w.calls) }

  /** The world after one more call with no effect of its own. */
  function Elapsed(w: World): World {
    w.(now := w.now + Upcoming(w).latency, calls := w.calls + 1)
  }

  function GetDeployment(w: World, key: Key): Replied<Deployment> {
    Replied(Elapsed(w),
            if Upcoming(w).err.Some? then Err(Upcoming(w).err.value)
            else if key !in w.deployments then Err("not found")
            else Ok(w.deployments[key]))
  }

  /** An update that fails has no effect, and nobody else writes. */
  function UpdateDeployment(w: World, key: Key, d: Deployment): Replied<()> {
    if Upcoming(w).err.Some? then Replied(Elapsed(w), Err(Upcoming(w).err.value))
    else Replied(Elapsed(w).(deployments := w.deployments[key := d]), Ok(()))
  }

  function Desired(d: Deployment): int {
    if d.replicas.Some? then d.replicas.value else 1
  }

  function DeploymentReplicas(w: World, key: Key): Replied<int> {
    var g := GetDeployment(w, key);
    Replied(g.world, if g.result.Ok? then Ok(Desired(g.result.value)) else Err(g.result.error))
  }

  function DeploymentReadyReplicas(w: World, key: Key): Replied<nat> {
    var g := GetDeployment(w, key);
    Replied(g.world, if g.result.Ok? then Ok(Upcoming(w).ready) else Err(g.result.error))
  }

  function Modify(w: World, key: Key, change: Deployment -> Deployment): Replied<()> {
    var g := GetDeployment(w, key);
    match g.result
    case Err(e) => Replied(g.world, Err(e))
    case Ok(d) => UpdateDeployment(g.world, key, change(d))
  }

  function ScaleDeployment(w: World, key: Key, n: int): Replied<()> {
    Modify(w, key, (d: Deployment) => d.(replicas := Some(n)))
  }

  function RolloutRestart(w: World, key: Key): Replied<()> {
    Modify(w, key, (d: Deployment) => d.(rollouts := d.rollouts + 1))
  }

  /** int64(float64(limit) * factor), over the reals. */
  function IncreaseMemoryLimit(w: World, key: Key, factor: real): Replied<()> {
    Modify(w, key, (d: Deployment) => d.(memory := (d.memory as real * factor).Floor))
  }

  function DeletePod(w: World): Replied<()> {
    Replied(Elapsed(w), if Upcoming(w).err.Some? then Err(Upcoming(w).err.value) else Ok(()))
  }

  /** Any read of a pod that either succeeds or fails. */
  function ReadPod(w: World): Replied<()> {
    DeletePod(w)
  }

  /** Pod, then ReplicaSet, then the Deployment that owns it - if one does. */
  function OwningDeploymentName(w: World): Replied<string> {
    var pod := ReadPod(w);
    if pod.result.Err? then Replied(pod.world, Err(pod.result.error))
    else
      var rs := pod.world;
      Replied(Elapsed(rs),
              if Upcoming(rs).err.Some? then Err(Upcoming(rs).err.value)
              else if Upcoming(rs).owner.None? then Err("not owned by a Deployment")
              else Ok(Upcoming(rs).owner.value))
  }
}

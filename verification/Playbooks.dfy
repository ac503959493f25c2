/** The playbook interface and the registry that picks a playbook for a signal. */
module Playbooks {
  import opened Wrappers
  import opened Wire
  import E = ExecEngine

  datatype Finding = Finding(signal: Signal, summary: string, meta: Meta)

  datatype Diagnosed<W> = Diagnosed(world: W, result: Result<Finding, string>)

  /** Ok(None) when the problem is no longer there. */
  datatype Rechecked<!W, !S> = Rechecked(world: W, result: Result<Option<seq<E.Action<W, S>>>, string>)

  /** A Playbook; recheck is there when it is also Recheckable. */
  datatype Playbook<!W, !S> = Playbook(
    id: string,
    detect: Signal -> bool,
    diagnose: (W, Signal) -> Diagnosed<W>,
    ladder: Finding -> seq<E.Action<W, S>>,
    recheck: Option<(W, Signal, Meta) -> Rechecked<W, S>>)

  /** The first registered playbook that detects the signal. */
  function Find<W, S>(registry: seq<Playbook<W, S>>, sig: Signal): Option<Playbook<W, S>> {
    if registry == [] then None
    else if registry[0].detect(sig) then Some(registry[0])
    else Find(registry[1..], sig)
  }

  lemma {:induction false} FindIsFirst<W, S>(registry: seq<Playbook<W, S>>, sig: Signal)
    ensures Find(registry, sig).None? <==> forall i | 0 <= i < |registry| :: !registry[i].detect(sig)
    ensures forall i | && 0 <= i < |registry| && registry[i].detect(sig)
                       && (forall j | 0 <= j < i :: !registry[j].detect(sig)) ::
              Find(registry, sig) == Some(registry[i])
  {
    if registry != [] && !registry[0].detect(sig) {
      FindIsFirst(registry[1..], sig);
      forall i | 0 <= i < |registry| && registry[i].detect(sig) && (forall j | 0 <= j < i :: !registry[j].detect(sig))
        ensures Find(registry, sig) == Some(registry[i])
      {
        assert registry[1..][i - 1] == registry[i];
        assert forall j | 0 <= j < i - 1 :: registry[1..][j] == registry[j + 1];
      }
    }
  }
}

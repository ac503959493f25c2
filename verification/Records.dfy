/** What the record of a rung says, read off the action's closures alone: its output, and every
    error that was met, in the order it was met. */
module Records {
  import opened Wrappers
  import opened Policy
  import opened ExecEngine

  /** Where Run starts: after the snapshot, if there is one. */
  function AtRun<W, S>(a: Action<W, S>, w: W): W {
    if a.snapshot.Some? then a.snapshot.value(w).world else w
  }

  predicate SnapshotFails<W, S>(a: Action<W, S>, w: W) {
    a.snapshot.Some? && a.snapshot.value(w).err.Some?
  }

  function Took<W, S>(a: Action<W, S>, w: W): Option<S> {
    if a.snapshot.Some? then a.snapshot.value(w).snap else None
  }

  predicate RunFails<W, S>(a: Action<W, S>, w: W) {
    a.run(AtRun(a, w)).err.Some?
  }

  /** Validation happens only after a Run that worked. */
  predicate Validates<W, S>(a: Action<W, S>, w: W) {
    !RunFails(a, w) && a.validate.Some?
  }

  function Verdict<W, S>(a: Action<W, S>, w: W): Validated<W>
    requires Validates(a, w)
  {
    a.validate.value(a.run(AtRun(a, w)).world)
  }

  predicate Healthy<W, S>(a: Action<W, S>, w: W) {
    !RunFails(a, w) && (a.validate.None? || Verdict(a, w).healthy)
  }

  /** Where the rung stands when it is over, but for a rollback. */
  function Before<W, S>(a: Action<W, S>, w: W): W {
    if Validates(a, w) then Verdict(a, w).world else a.run(AtRun(a, w)).world
  }

  predicate RollsBack<W, S>(a: Action<W, S>, w: W) {
    !Healthy(a, w) && a.rollback.Some? && Took(a, w).Some?
  }

  function Undone<W, S>(a: Action<W, S>, w: W): RolledBack<W>
    requires RollsBack(a, w)
  {
    a.rollback.value(Before(a, w), Took(a, w).value)
  }

  /** Run's error, or else the validation's, which may come with either verdict. */
  function Trouble<W, S>(a: Action<W, S>, w: W): Option<string> {
    if RunFails(a, w) then a.run(AtRun(a, w)).err
    else if a.validate.Some? then Verdict(a, w).err
    else None
  }

  function Text<S>(rd: Redactor<S>, trouble: Option<string>): string {
    if trouble.Some? then rd.text(trouble.value) else ""
  }

  /** The record of a rung that is past its snapshot - and the world it leaves. */
  lemma RecordSays<W, S>(rd: Redactor<S>, a: Action<W, S>, w: W)
    ensures var (v, t) := RunOneSpec(rd, a, w);
            && t.action == a.name && t.description == a.description && t.risk == a.risk && !t.skipped
            && (SnapshotFails(a, w) ==>
                  && v == a.snapshot.value(w).world
                  && t.output == "" && t.snapshot.None? && !t.validated && !t.rolledBack
                  && t.err == rd.text("snapshot failed: " + a.snapshot.value(w).err.value))
            && (!SnapshotFails(a, w) ==>
                  && v == (if RollsBack(a, w) then Undone(a, w).world else Before(a, w))
                  && t.output == rd.text(a.run(AtRun(a, w)).output)
                  && t.snapshot == (if Took(a, w).Some? then Some(rd.state(Took(a, w).value)) else None)
                  && (t.validated <==> Healthy(a, w))
                  && (t.rolledBack <==> RollsBack(a, w) && Undone(a, w).err.None?)
                  && t.err == if RollsBack(a, w) && Undone(a, w).err.Some?
                              then rd.text(Text(rd, Trouble(a, w)) + "; rollback failed: " + Undone(a, w).err.value)
                              else Text(rd, Trouble(a, w)))
  {
  }

  /** Something went wrong: the snapshot, the Run, the validation or the rollback gave an error. */
  predicate SomethingFailed<W, S>(a: Action<W, S>, w: W) {
    SnapshotFails(a, w) || Trouble(a, w).Some? || (RollsBack(a, w) && Undone(a, w).err.Some?)
  }

  /** A scrubber that leaves something of every text that is not empty. */
  ghost predicate KeepsText<S>(rd: Redactor<S>) {
    forall s: string :: s != "" ==> rd.text(s) != ""
  }

  /** What is scrubbed last: the text of the failed snapshot, of the trouble, or of the trouble, if
      any, and the rollback's failure after it. */
  function LastText<W, S>(rd: Redactor<S>, a: Action<W, S>, w: W): string
    requires SomethingFailed(a, w)
  {
    if SnapshotFails(a, w) then "snapshot failed: " + a.snapshot.value(w).err.value
    else if RollsBack(a, w) && Undone(a, w).err.Some? then
      Text(rd, Trouble(a, w)) + "; rollback failed: " + Undone(a, w).err.value
    else Trouble(a, w).value
  }

  /** A record is silent exactly when nothing failed, or the scrubber left nothing of what did. When
      it always leaves something, that is: nothing failed, or all that did was a Run or a
      validation whose error has no text. */
  lemma SilentIff<W, S>(rd: Redactor<S>, a: Action<W, S>, w: W)
    ensures RunOneSpec(rd, a, w).1.err == "" <==> !SomethingFailed(a, w) || rd.text(LastText(rd, a, w)) == ""
    ensures KeepsText(rd) ==>
              (RunOneSpec(rd, a, w).1.err == "" <==>
               || !SomethingFailed(a, w)
               || (!SnapshotFails(a, w) && !(RollsBack(a, w) && Undone(a, w).err.Some?)
                   && rd.text(Trouble(a, w).value) == ""))
  {
    RecordSays(rd, a, w);
    if SnapshotFails(a, w) {
      assert ("snapshot failed: " + a.snapshot.value(w).err.value)[0] == 's';
    } else if RollsBack(a, w) && Undone(a, w).err.Some? {
      var before := Text(rd, Trouble(a, w));
      assert (before + "; rollback failed: " + Undone(a, w).err.value)[|before|] == ';';
    }
    hide RunOneSpec;
  }

  /** The attempts of a whole ladder are such records, rung by rung, each made where the one
      before it ended; a high-risk rung ends them, recorded as skipped and with its reason. */
  ghost predicate Recorded<W, S>(rd: Redactor<S>, a: Action<W, S>, t: Attempt<S>, w: W, v: W) {
    if a.risk == High then
      && v == w
      && t == Attempt(a.name, a.description, a.risk, "",
                      "ação de alto risco — não executada automaticamente, requer aprovação manual",
                      None, false, false, true)
    else (v, t) == RunOneSpec(rd, a, w)
  }

  ghost predicate Trail<W, S>(rd: Redactor<S>, actions: seq<Action<W, S>>, attempts: seq<Attempt<S>>, worlds: seq<W>) {
    && |attempts| <= |actions| && |worlds| == |attempts| + 1
    && forall i | 0 <= i < |attempts| :: Recorded(rd, actions[i], attempts[i], worlds[i], worlds[i + 1])
  }

  /** It is over when a rung is healthy or high, and not before the last one otherwise. */
  predicate OverAt<W, S>(actions: seq<Action<W, S>>, attempts: seq<Attempt<S>>) {
    && (|attempts| < |actions| ==> attempts != [] && Stops(actions, attempts, |attempts| - 1))
    && (forall i | 0 <= i < |attempts| - 1 :: !Stops(actions, attempts, i))
  }

  predicate Stops<W, S>(actions: seq<Action<W, S>>, attempts: seq<Attempt<S>>, i: nat) {
    i < |attempts| && i < |actions| && (actions[i].risk == High || attempts[i].validated)
  }

  /** The rungs whose Run was called: those not high whose snapshot did not fail where they stood. */
  function RunsMade<W, S>(actions: seq<Action<W, S>>, attempts: seq<Attempt<S>>, worlds: seq<W>): seq<Action<W, S>>
    requires |attempts| <= |actions| && |worlds| == |attempts| + 1
  {
    if attempts == [] then []
    else
      (if actions[0].risk == High || SnapshotFails(actions[0], worlds[0]) then [] else [actions[0]])
      + RunsMade(actions[1..], attempts[1..], worlds[1..])
  }

  lemma {:induction false} ClimbIsATrail<W, S>(rd: Redactor<S>, actions: seq<Action<W, S>>, w: W) returns (worlds: seq<W>)
    ensures var (v, resolved, ts) := Climb(rd, actions, w);
            && Trail(rd, actions, ts, worlds) && worlds[0] == w && worlds[|ts|] == v
            && OverAt(actions, ts)
            && (resolved <==> ts != [] && ts[|ts| - 1].validated)
            && Invoked(rd, actions, w) == RunsMade(actions, ts, worlds)
  {
    hide RunOneSpec;
    if actions == [] {
      worlds := [w];
    } else if actions[0].risk == High {
      worlds := [w, w];
      assert Recorded(rd, actions[0], Climb(rd, actions, w).2[0], w, w);
    } else {
      var (w1, t) := RunOneSpec(rd, actions[0], w);
      if t.validated {
        worlds := [w, w1];
        assert Recorded(rd, actions[0], t, w, w1);
      } else {
        var rest := ClimbIsATrail(rd, actions[1..], w1);
        worlds := [w] + rest;
        var ts := Climb(rd, actions[1..], w1).2;
        TrailInFront(rd, actions, t, w, ts, rest);
        assert ([t] + ts)[1..] == ts && worlds[1..] == rest;
      }
    }
  }

  lemma TrailInFront<W, S>(rd: Redactor<S>, actions: seq<Action<W, S>>, t: Attempt<S>, w: W,
                           ts: seq<Attempt<S>>, rest: seq<W>)
    requires actions != [] && Trail(rd, actions[1..], ts, rest) && Recorded(rd, actions[0], t, w, rest[0])
    requires OverAt(actions[1..], ts) && actions[0].risk != High && !t.validated
    ensures Trail(rd, actions, [t] + ts, [w] + rest) && OverAt(actions, [t] + ts)
  {
    hide Recorded;
    var all, worlds := [t] + ts, [w] + rest;
    forall i | 0 <= i < |all|
      ensures Recorded(rd, actions[i], all[i], worlds[i], worlds[i + 1])
    {
      if i > 0 {
        assert Recorded(rd, actions[1..][i - 1], ts[i - 1], rest[i - 1], rest[i]);
      }
    }
    forall i | 0 <= i < |all| - 1
      ensures !Stops(actions, all, i)
    {
      if i > 0 {
        assert !Stops(actions[1..], ts, i - 1);
      }
    }
    if |all| < |actions| {
      assert ts != [] && Stops(actions[1..], ts, |ts| - 1);
    }
  }
}

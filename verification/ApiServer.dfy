/** The API server (with the snapshot store behind it) as one mutable object shared by all actors. */
module ApiServers {
  import opened Cluster
  import opened ClusterSafety
  import opened Interference

  /** The acts of one actor, in order. */
  ghost function By(acts: seq<Act>, me: Actor): seq<Act>
    decreases |acts|
  {
    if acts == [] then []
    else
      var rest := By(acts[..|acts| - 1], me);
      if ActorOf(acts[|acts| - 1]) == me then rest + [acts[|acts| - 1]] else rest
  }

  lemma ByOne(acts: seq<Act>, a: Act, me: Actor)
    ensures By(acts + [a], me) == if ActorOf(a) == me then By(acts, me) + [a] else By(acts, me)
  {
    assert (acts + [a])[..|acts + [a]| - 1] == acts;
  }

  lemma {:induction false} ByOthers(acts: seq<Act>, n: nat, me: Actor)
    requires n <= |acts| && OnlyOthers(acts, n, |acts|, me)
    ensures By(acts, me) == By(acts[..n], me)
    decreases |acts|
  {
    if n == |acts| {
      assert acts[..n] == acts;
    } else {
      var before := acts[..|acts| - 1];
      ByOthers(before, n, me);
      assert before[..n] == acts[..n];
    }
  }

  /** A suffix that makes a new name: names are drawn at random and assumed not to repeat. */
  method FreshSuffix(prefix: string, used: set<string>) returns (suffix: string)
    ensures prefix + suffix !in used
  {
    suffix := *;
    var longer := used;
    if prefix + suffix in used {
      suffix := "";
      while prefix + suffix in used
        invariant longer <= used
        invariant forall s :: s in used && |s| >= |prefix + suffix| ==> s in longer
        decreases |longer|
      {
        longer := longer - {prefix + suffix};
        suffix := suffix + "0";
      }
    }
  }

  class ApiServer {
    ghost const init: World
    /** In a calm cluster no call fails and nobody else acts; everything else holds in any cluster. */
    const calm: bool
    var world: World
    ghost var acts: seq<Act>

    /** The world is where a legal run has led. */
    ghost predicate Valid()
      reads this
    {
      Inv(init) && Legal(init, acts) && world == Exec(init, acts)
    }

    constructor (w: World, calm: bool)
      requires Inv(w)
      ensures Valid() && world == w && acts == [] && this.calm == calm
    {
      init, world, acts := w, w, [];
      this.calm := calm;
    }

    lemma NamesHold()
      requires Valid()
      ensures NamesInv(world)
    {
      RunInv(init, acts);
    }

    /** Other actors run for a while: any legal acts of theirs, in any number and order. */
    method Interfere(me: Actor)
      requires Valid()
      modifies this
      ensures Valid()
      ensures old(acts) <= acts && OnlyOthers(acts, |old(acts)|, |acts|, me)
      ensures calm ==> acts == old(acts) && world == old(world)
    {
      // Nothing happens here; callers know no more than the postcondition.
    }

    /** One call takes effect. */
    method Commit(a: Act)
      requires Valid() && Enabled(world, a)
      modifies this
      ensures Valid() && acts == old(acts) + [a] && world == Apply(old(world), a)
    {
      LegalStep(init, acts, a);
      acts, world := acts + [a], Apply(world, a);
    }

    /** Does the next call fail to reach the server, or come back with an error? */
    method Refused() returns (refused: bool)
      ensures calm ==> !refused
    {
      refused := *;
      if calm {
        refused := false;
      }
    }
  }
}

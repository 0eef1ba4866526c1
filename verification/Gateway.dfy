/** The trigger gateway: adapters are started for triggers that become active and stopped for those that
    no longer are. */
module Gateways {
  import opened Wrappers

  datatype Trigger = Trigger(name: string, active: bool, kind: string, configOk: bool, needsSecret: bool)

  datatype Adapter = Adapter(trigger: string, kind: string)

  const KINDS := {"webhook", "cron", "telegram"}

  /** The names the sync loop marks as active. */
  function Active(list: seq<Trigger>): set<string> {
    set t | t in list && t.active :: t.name
  }

  /** buildAdapter can succeed for this trigger: a known type, and settings that parse. */
  predicate Buildable(t: Trigger) {
    t.kind in KINDS && (t.kind != "webhook" ==> t.configOk)
  }

  /** And it will: no Secret has to be read for it. */
  predicate SureToBuild(t: Trigger) {
    Buildable(t) && (t.kind == "telegram" ==> !t.needsSecret)
  }

  /** This is the adapter of some active trigger of the list that can be built. */
  ghost predicate SomeBuildable(list: seq<Trigger>, a: Adapter) {
    exists t :: t in list && t.active && Buildable(t) && a == Adapter(t.name, t.kind)
  }

  /** What the first loop of syncOnce has done after these triggers. */
  ghost predicate Started(was: map<string, Adapter>, now: map<string, Adapter>,
                          list: seq<Trigger>, built: set<string>)
  {
    && built <= Active(list) - was.Keys && now.Keys == was.Keys + built
    && (forall n :: n in was ==> n in now && now[n] == was[n])
    && (forall n :: n in built ==> now[n].trigger == n && SomeBuildable(list, now[n]))
    && (forall t :: t in list && t.active && SureToBuild(t) ==> t.name in now)
  }

  lemma NoneStarted(now: map<string, Adapter>)
    ensures Started(now, now, [], {}) && Active([]) == {}
  {
  }

  lemma StartedOne(was: map<string, Adapter>, now: map<string, Adapter>, next: map<string, Adapter>,
                   list: seq<Trigger>, built: set<string>, t: Trigger, more: bool)
    requires Started(was, now, list, built) && t.active
    requires next == if more then now[t.name := Adapter(t.name, t.kind)] else now
    requires more ==> t.name !in now && Buildable(t)
    requires SureToBuild(t) ==> t.name in next
    ensures Started(was, next, list + [t], if more then built + {t.name} else built)
  {
    hide Buildable, SureToBuild;
    ActiveOne(list, t);
    MoreBuildable(list, t);
    hide SomeBuildable, Active;
    assert forall n :: n in built ==> next[n] == now[n];
  }

  lemma NotStarted(was: map<string, Adapter>, now: map<string, Adapter>,
                   list: seq<Trigger>, built: set<string>, t: Trigger)
    requires Started(was, now, list, built) && !t.active
    ensures Started(was, now, list + [t], built)
  {
    hide Buildable, SureToBuild;
    ActiveOne(list, t);
    MoreBuildable(list, t);
    hide SomeBuildable, Active;
  }

  lemma MoreBuildable(list: seq<Trigger>, t: Trigger)
    ensures forall a :: SomeBuildable(list, a) ==> SomeBuildable(list + [t], a)
    ensures t.active && Buildable(t) ==> SomeBuildable(list + [t], Adapter(t.name, t.kind))
  {
    forall a | SomeBuildable(list, a)
      ensures SomeBuildable(list + [t], a)
    {
      var u :| u in list && u.active && Buildable(u) && a == Adapter(u.name, u.kind);
      assert u in list + [t];
    }
    assert t in list + [t];
  }

  lemma ActiveOne(list: seq<Trigger>, t: Trigger)
    ensures Active(list + [t]) == Active(list) + if t.active then {t.name} else {}
  {
  }

  lemma BuiltTracked(was: map<string, Adapter>, now: map<string, Adapter>, list: seq<Trigger>, built: set<string>)
    requires Started(was, now, list, built)
    ensures built <= now.Keys
  {
  }

  /** One pass of the sync loop: a failed List changes nothing; otherwise exactly the adapters of triggers that are
      still active are kept, as they were, and those in built are added, each for an active trigger of a known
      type whose settings parse.  No such trigger is left out unless its Secret could not be read. */
  ghost predicate Pass(was: map<string, Adapter>, now: map<string, Adapter>, list: Option<seq<Trigger>>,
                       built: set<string>)
  {
    match list
    case None => now == was && built == {}
    case Some(ts) =>
      && (forall n :: n in now <==> n in built || (n in was && exists t :: t in ts && t.name == n && t.active))
      && (forall n :: n in was && n in now ==> now[n] == was[n])
      && (forall n :: n in built ==>
            n !in was && exists t :: t in ts && t.name == n && t.active && now[n] == Adapter(n, t.kind)
                                     && (t.kind == "webhook" || (t.kind in {"cron", "telegram"} && t.configOk)))
      && (forall t :: t in ts && t.active ==>
            || t.name in now
            || !(t.kind == "webhook" || (t.kind in {"cron", "telegram"} && t.configOk))
            || (t.kind == "telegram" && t.needsSecret))
  }

  lemma NoPass(now: map<string, Adapter>)
    ensures Pass(now, now, None, {})
  {
  }

  /** Starting what is active and then stopping what is not makes a pass. */
  lemma PassDone(was: map<string, Adapter>, mid: map<string, Adapter>, now: map<string, Adapter>,
                 list: seq<Trigger>, built: set<string>)
    requires Started(was, mid, list, built)
    requires now.Keys == mid.Keys * Active(list) && forall n :: n in now ==> now[n] == mid[n]
    ensures Pass(was, now, Some(list), built)
  {
  }

  /** Each pass starts the adapters it builds. */
  ghost function Starts(built: seq<set<string>>): multiset<string> {
    if built == [] then multiset{} else Starts(built[..|built| - 1]) + multiset(built[|built| - 1])
  }

  /** The adapters before and after each of these passes. */
  ghost predicate Passes(states: seq<map<string, Adapter>>, lists: seq<Option<seq<Trigger>>>,
                         built: seq<set<string>>)
  {
    && |states| == |lists| + 1 && |built| == |lists|
    && (forall i :: 0 <= i < |lists| ==> Pass(states[i], states[i + 1], lists[i], built[i]))
  }

  lemma NoPasses(now: map<string, Adapter>)
    ensures Passes([now], [], []) && Starts([]) == multiset{}
  {
  }

  lemma OneMorePass(states: seq<map<string, Adapter>>, lists: seq<Option<seq<Trigger>>>, built: seq<set<string>>,
                    now: map<string, Adapter>, list: Option<seq<Trigger>>, more: set<string>)
    requires Passes(states, lists, built) && Pass(states[|lists|], now, list, more)
    ensures Passes(states + [now], lists + [list], built + [more])
    ensures Starts(built + [more]) == Starts(built) + multiset(more)
  {
    hide Pass;
    assert (built + [more])[..|built|] == built;
    forall i | 0 <= i < |lists + [list]|
      ensures Pass((states + [now])[i], (states + [now])[i + 1], (lists + [list])[i], (built + [more])[i])
    {
      assert i < |lists| ==> Pass(states[i], states[i + 1], lists[i], built[i]);
    }
  }

  class Gateway {
    var adapters: map<string, Adapter>
    /** One entry per Start and per cancel-and-Stop of an adapter, by trigger. */
    ghost var started: multiset<string>
    ghost var stopped: multiset<string>

    /** Starts exceed stops by one for the tracked triggers, and equal them for all others. */
    ghost predicate Valid()
      reads this
    {
      && (forall n :: started[n] == stopped[n] + if n in adapters then 1 else 0)
      && (forall n :: n in adapters ==> adapters[n].trigger == n)
    }

    constructor ()
      ensures Valid() && adapters == map[] && started == multiset{}
    {
      adapters, started, stopped := map[], multiset{}, multiset{};
    }

    /** buildAdapter: an unknown type and bad settings are errors, and so is a Secret that cannot be read. */
    method BuildAdapter(t: Trigger) returns (a: Option<Adapter>)
      ensures a.Some? ==> a.value == Adapter(t.name, t.kind)
      ensures a.Some? ==> t.kind == "webhook" || (t.kind in {"cron", "telegram"} && t.configOk)
      ensures t.kind == "webhook" || (t.kind == "cron" && t.configOk) ==> a.Some?
      ensures t.kind == "telegram" && t.configOk && !t.needsSecret ==> a.Some?
    {
      a := None;
      if t.kind == "webhook" {
        a := Some(Adapter(t.name, t.kind));
      } else if t.kind == "cron" {
        if t.configOk {
          a := Some(Adapter(t.name, t.kind));
        }
      } else if t.kind == "telegram" {
        if t.configOk {
          var secretRead := *;
          if !t.needsSecret || secretRead {
            a := Some(Adapter(t.name, t.kind));
          }
        }
      }
    }

    /** An active trigger: nothing to do if its adapter is running, otherwise build one and start it. */
    method StartOne(t: Trigger) returns (built: bool)
      requires Valid()
      modifies this
      ensures Valid() && stopped == old(stopped)
      ensures started == old(started) + if built then multiset{t.name} else multiset{}
      ensures built ==> t.name !in old(adapters) && Buildable(t)
                        && adapters == old(adapters)[t.name := Adapter(t.name, t.kind)]
      ensures !built ==> adapters == old(adapters)
      ensures SureToBuild(t) ==> t.name in adapters
    {
      built := false;
      if t.name !in adapters {
        var a := BuildAdapter(t);
        if a.Some? {
          adapters := adapters[t.name := a.value];
          started := started + multiset{t.name};
          built := true;
        }
      }
    }

    /** The first loop of syncOnce: start what is active and not yet tracked. */
    method StartActive(list: seq<Trigger>) returns (active: set<string>, ghost built: set<string>)
      requires Valid()
      modifies this
      ensures Valid() && active == Active(list) && stopped == old(stopped)
      ensures Started(old(adapters), adapters, list, built) && started == old(started) + multiset(built)
    {
      hide Buildable, SureToBuild, Valid, SomeBuildable, Active, Started;
      NoneStarted(adapters);
      active, built := {}, {};
      for i := 0 to |list|
        invariant Valid() && active == Active(list[..i]) && stopped == old(stopped)
        invariant Started(old(adapters), adapters, list[..i], built) && started == old(started) + multiset(built)
      {
        var t := list[i];
        assert list[..i + 1] == list[..i] + [t];
        ActiveOne(list[..i], t);
        if t.active {
          ghost var now := adapters;
          active := active + {t.name};
          var more := StartOne(t);
          StartedOne(old(adapters), now, adapters, list[..i], built, t, more);
          BuiltTracked(old(adapters), now, list[..i], built);
          built := if more then built + {t.name} else built;
        } else {
          NotStarted(old(adapters), adapters, list[..i], built, t);
        }
      }
      assert list[..|list|] == list;
    }

    method StopOne(n: string)
      requires Valid() && n in adapters
      modifies this
      ensures Valid() && started == old(started) && stopped == old(stopped) + multiset{n}
      ensures adapters == old(adapters) - {n}
    {
      stopped := stopped + multiset{n};
      adapters := adapters - {n};
    }

    /** The loop that stops and forgets adapters: those not in keep. */
    method StopOthers(keep: set<string>)
      requires Valid()
      modifies this
      ensures Valid() && started == old(started)
      ensures adapters.Keys == old(adapters).Keys * keep
      ensures forall n :: n in adapters ==> adapters[n] == old(adapters)[n]
    {
      hide Valid;
      var names := adapters.Keys;
      while names != {}
        invariant Valid() && started == old(started)
        invariant names <= adapters.Keys <= old(adapters).Keys
        invariant forall n :: n in old(adapters) && n in keep ==> n in adapters
        invariant forall n :: n in adapters ==> adapters[n] == old(adapters)[n] && (n in names || n in keep)
        decreases |names|
      {
        var n :| n in names;
        names := names - {n};
        if n !in keep {
          StopOne(n);
        }
      }
    }

    /** syncOnce.  A failed List changes nothing; otherwise the tracked adapters become the old ones that are
        still active, each left running, plus the newly active triggers that built. */
    method SyncOnce(list: Option<seq<Trigger>>) returns (ok: bool, ghost built: set<string>)
      requires Valid()
      modifies this
      ensures Valid() && ok == list.Some?
      ensures list.None? ==> stopped == old(stopped)
      ensures Pass(old(adapters), adapters, list, built) && started == old(started) + multiset(built)
    {
      hide Valid, Pass, Buildable, SureToBuild, Started, SomeBuildable, Active;
      built := {};
      ok := list.Some?;
      if ok {
        var active;
        active, built := StartActive(list.value);
        ghost var mid := adapters;
        StopOthers(active);
        PassDone(old(adapters), mid, adapters, list.value, built);
      } else {
        NoPass(adapters);
      }
    }

    /** stopAll */
    method StopAll()
      requires Valid()
      modifies this
      ensures Valid() && adapters == map[] && started == old(started) && forall n :: started[n] == stopped[n]
    {
      StopOthers({});
    }

    /** Sync: one pass at once, one per tick, and stopAll at the end.  The adapters it starts are those its passes
        build, and after it each has been stopped exactly as often as it was started. */
    method Sync(lists: seq<Option<seq<Trigger>>>)
        returns (ghost states: seq<map<string, Adapter>>, ghost built: seq<set<string>>)
      requires Valid() && lists != []
      modifies this
      ensures Passes(states, lists, built) && states[0] == old(adapters)
      ensures started == old(started) + Starts(built)
      ensures Valid() && adapters == map[] && forall n :: started[n] == stopped[n]
    {
      hide Valid, Pass, Passes;
      NoPasses(adapters);
      states, built := [adapters], [];
      for i := 0 to |lists|
        invariant Valid() && Passes(states, lists[..i], built) && started == old(started) + Starts(built)
        invariant |states| == i + 1 && states[0] == old(adapters) && states[i] == adapters
      {
        assert lists[..i + 1] == lists[..i] + [lists[i]];
        ghost var was, more := adapters, {};
        var ok;
        ok, more := SyncOnce(lists[i]);
        OneMorePass(states, lists[..i], built, adapters, lists[i], more);
        states, built := states + [adapters], built + [more];
      }
      assert lists[..|lists|] == lists;
      StopAll();
    }
  }
}

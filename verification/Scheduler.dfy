/**
Reconciling the in-process cron entries with the schedules in the database.
*/
module Scheduler {
  // signature: calculateSignature of the definition.
  datatype Schedule = Schedule(name: string, active: bool, signature: string)

  // What a cron entry runs.
  datatype Job = Job(name: string, signature: string)

  function Listed(schedules: seq<Schedule>): map<string, Schedule> {
    if schedules == [] then map[]
    else
      var last := schedules[|schedules| - 1];
      Listed(schedules[..|schedules| - 1])[last.name := last]
  }

  predicate IsActive(current: map<string, Schedule>, name: string) {
    name in current && current[name].active
  }

  // sigs: the signature of each installed schedule. name is installed with its
  // current definition.
  predicate UpToDate(sigs: map<string, string>, current: map<string, Schedule>, name: string) {
    name in sigs && name in current && sigs[name] == current[name].signature
  }

  // What a reconcile that starts from sigs should leave installed.
  predicate Wanted(sigs: map<string, string>, current: map<string, Schedule>, accepts: Schedule -> bool, name: string) {
    IsActive(current, name) && (accepts(current[name]) || UpToDate(sigs, current, name))
  }

  predicate SettledAt(sigs: map<string, string>, current: map<string, Schedule>, accepts: Schedule -> bool,
                      name: string) {
    (name in sigs <==> Wanted(sigs, current, accepts, name)) && (name in sigs ==> UpToDate(sigs, current, name))
  }

  ghost predicate Settled(sigs: map<string, string>, current: map<string, Schedule>, accepts: Schedule -> bool) {
    forall name :: SettledAt(sigs, current, accepts, name)
  }

  predicate SameAt(a: map<string, string>, b: map<string, string>, name: string) {
    (name in a <==> name in b) && (name in a ==> a[name] == b[name])
  }

  class Reconciler {
    var entryIDs: map<string, nat>
    var signatures: map<string, string>
    var cron: map<nat, Job>
    var next: nat

    ghost function State(): (map<string, nat>, map<string, string>, map<nat, Job>, nat)
      reads this
    {
      (entryIDs, signatures, cron, next)
    }

    ghost predicate EntryOk(name: string)
      reads this
    {
      name in entryIDs ==>
        && name in signatures && entryIDs[name] in cron
        && cron[entryIDs[name]] == Job(name, signatures[name])
    }

    ghost predicate JobOk(id: nat)
      reads this
    {
      id in cron ==> id < next && cron[id].name in entryIDs && entryIDs[cron[id].name] == id
    }

    // The two maps share one key set, and cron entries are in bijection with it:
    // none orphaned, each running the installed definition.
    ghost predicate Valid()
      reads this
    {
      entryIDs.Keys == signatures.Keys && (forall name :: EntryOk(name)) && (forall id :: JobOk(id))
    }

    constructor ()
      ensures Valid() && entryIDs == map[]
    {
      entryIDs, signatures, cron, next := map[], map[], map[], 0;
    }

    // A definition the cron library refuses is logged and not installed.
    method Add(s: Schedule, accepted: bool)
      requires Valid() && s.name !in entryIDs
      modifies this
      ensures Valid()
      ensures signatures == if accepted then old(signatures)[s.name := s.signature] else old(signatures)
      ensures !accepted ==> State() == old(State())
      ensures forall name | name in old(entryIDs) :: name in entryIDs && entryIDs[name] == old(entryIDs)[name]
    {
      if !accepted {
        return;
      }
      assert next !in cron by { assert JobOk(next); }
      cron := cron[next := Job(s.name, s.signature)];
      entryIDs := entryIDs[s.name := next];
      signatures := signatures[s.name := s.signature];
      next := next + 1;
      forall name ensures EntryOk(name) {
        assert old(EntryOk(name));
      }
      forall id ensures JobOk(id) {
        assert old(JobOk(id));
      }
    }

    method Remove(name: string)
      requires Valid()
      modifies this`entryIDs, this`signatures, this`cron
      ensures Valid()
      ensures signatures == old(signatures) - {name} && next == old(next)
      ensures name !in old(entryIDs) ==> State() == old(State())
      ensures forall other | other in old(entryIDs) && other != name ::
              other in entryIDs && entryIDs[other] == old(entryIDs)[other]
    {
      if name !in entryIDs {
        return;
      }
      assert EntryOk(name);
      cron := cron - {entryIDs[name]};
      entryIDs := entryIDs - {name};
      signatures := signatures - {name};
      forall other ensures EntryOk(other) {
        assert old(EntryOk(other)) && old(EntryOk(name));
      }
      forall id ensures JobOk(id) {
        assert old(JobOk(id));
      }
    }

    method RemoveStale(current: map<string, Schedule>)
      requires Valid()
      modifies this`entryIDs, this`signatures, this`cron
      ensures Valid()
      ensures forall name :: name in signatures <==> name in old(signatures) && IsActive(current, name)
      ensures forall name | name in signatures ::
              signatures[name] == old(signatures)[name] && entryIDs[name] == old(entryIDs)[name]
      ensures (forall name | name in old(signatures) :: IsActive(current, name)) ==> State() == old(State())
    {
      var toRemove := set name | name in entryIDs && !IsActive(current, name);
      while toRemove != {}
        invariant Valid()
        invariant forall name | name in toRemove :: name in old(signatures) && !IsActive(current, name)
        invariant forall name ::
                    name in signatures <==> name in old(signatures) && (IsActive(current, name) || name in toRemove)
        invariant forall name | name in signatures ::
                  signatures[name] == old(signatures)[name] && entryIDs[name] == old(entryIDs)[name]
        invariant (forall name | name in old(signatures) :: IsActive(current, name))
                  ==> toRemove == {} && State() == old(State())
        decreases toRemove
      {
        var name :| name in toRemove;
        Remove(name);
        toRemove := toRemove - {name};
      }
    }

    // Start, restart or leave running one listed schedule.
    method Refresh(s: Schedule, accepted: bool)
      requires Valid()
      modifies this
      ensures Valid()
      ensures forall other | other != s.name ::
                (other in signatures <==> other in old(signatures))
                  && (other in signatures ==> signatures[other] == old(signatures)[other])
      ensures s.name in signatures <==>
                accepted || (s.name in old(signatures) && old(signatures)[s.name] == s.signature)
      ensures s.name in signatures ==> signatures[s.name] == s.signature
      ensures s.name in old(signatures) && old(signatures)[s.name] == s.signature ==> State() == old(State())
      ensures !accepted && s.name !in old(signatures) ==> State() == old(State())
    {
      if s.name in entryIDs {
        if signatures[s.name] == s.signature {
          return;
        }
        Remove(s.name);
      }
      Add(s, accepted);
    }

    method RefreshAll(current: map<string, Schedule>, accepts: Schedule -> bool)
      requires Valid()
      requires forall name | name in current :: current[name].name == name
      requires forall name | name in signatures :: IsActive(current, name)
      modifies this
      ensures Valid()
      ensures forall name :: name in signatures <==> Wanted(old(signatures), current, accepts, name)
      ensures forall name | name in signatures :: UpToDate(signatures, current, name)
      ensures Settled(old(signatures), current, accepts) ==> State() == old(State())
    {
      ghost var sigs := signatures;
      var todo := set name | name in current && current[name].active;
      while todo != {}
        invariant Valid()
        invariant forall name | name in todo :: IsActive(current, name)
        invariant forall name | name in todo :: SameAt(sigs, signatures, name)
        invariant forall name | name !in todo :: name in signatures <==> Wanted(sigs, current, accepts, name)
        invariant forall name | name !in todo && name in signatures :: UpToDate(signatures, current, name)
        invariant Settled(sigs, current, accepts) ==> State() == old(State())
        decreases todo
      {
        var name :| name in todo;
        assert SameAt(sigs, signatures, name);
        assert Settled(sigs, current, accepts) ==> SettledAt(sigs, current, accepts, name);
        ghost var before := signatures;
        Refresh(current[name], accepts(current[name]));
        todo := todo - {name};
        forall other | other != name ensures SameAt(before, signatures, other) {
        }
      }
    }

    // Whatever order the maps are walked in: afterwards a name is installed
    // exactly when it is active and either its definition is accepted or it was
    // already running it, always with the current definition; and a state that
    // is already so is left alone.
    method Reconcile(schedules: seq<Schedule>, accepts: Schedule -> bool)
      requires Valid()
      modifies this
      ensures Valid()
      ensures forall name :: name in signatures <==> Wanted(old(signatures), Listed(schedules), accepts, name)
      ensures forall name | name in signatures :: UpToDate(signatures, Listed(schedules), name)
      ensures Settled(signatures, Listed(schedules), accepts)
      ensures Settled(old(signatures), Listed(schedules), accepts) ==> State() == old(State())
    {
      var current := Current(schedules);
      ghost var sigs := signatures;
      forall name | name in current ensures current[name].name == name {
        ListedByName(schedules, name);
      }
      if Settled(sigs, current, accepts) {
        forall name | name in sigs ensures IsActive(current, name) {
          assert SettledAt(sigs, current, accepts, name);
        }
      }
      RemoveStale(current);
      ghost var kept := signatures;
      forall name ensures Wanted(kept, current, accepts, name) <==> Wanted(sigs, current, accepts, name) {
      }
      RefreshAll(current, accepts);
      forall name ensures SettledAt(signatures, current, accepts, name) {
      }
    }
  }

  lemma {:induction false} ListedByName(schedules: seq<Schedule>, name: string)
    requires name in Listed(schedules)
    ensures Listed(schedules)[name].name == name
    decreases |schedules|
  {
    if schedules[|schedules| - 1].name != name {
      ListedByName(schedules[..|schedules| - 1], name);
    }
  }

  // schedules[i] is the last one of its name.
  ghost predicate LastOfName(schedules: seq<Schedule>, i: nat) {
    i < |schedules| && forall j | i < j < |schedules| :: schedules[j].name != schedules[i].name
  }

  // Each listed name has its last schedule,
  lemma {:induction false} LastIsListed(schedules: seq<Schedule>, i: nat)
    requires LastOfName(schedules, i)
    ensures schedules[i].name in Listed(schedules) && Listed(schedules)[schedules[i].name] == schedules[i]
    decreases |schedules|
  {
    if i < |schedules| - 1 {
      LastIsListed(schedules[..|schedules| - 1], i);
    }
  }

  // and no other name is there.
  lemma {:induction false} ListedIsLast(schedules: seq<Schedule>, name: string) returns (i: nat)
    requires name in Listed(schedules)
    ensures LastOfName(schedules, i) && schedules[i].name == name
    decreases |schedules|
  {
    i := |schedules| - 1;
    if schedules[i].name != name {
      i := ListedIsLast(schedules[..|schedules| - 1], name);
    }
  }

  method Current(schedules: seq<Schedule>) returns (current: map<string, Schedule>)
    ensures current == Listed(schedules)
    ensures forall i: nat | LastOfName(schedules, i) ::
              schedules[i].name in current && current[schedules[i].name] == schedules[i]
    ensures forall name | name in current :: exists i: nat :: LastOfName(schedules, i) && schedules[i].name == name
  {
    current := map[];
    for i := 0 to |schedules|
      invariant current == Listed(schedules[..i])
    {
      current := current[schedules[i].name := schedules[i]];
      assert schedules[..i + 1][..i] == schedules[..i];
    }
    assert schedules[..|schedules|] == schedules;
    forall i: nat | LastOfName(schedules, i)
      ensures schedules[i].name in current && current[schedules[i].name] == schedules[i]
    {
      LastIsListed(schedules, i);
    }
    forall name | name in current ensures exists i: nat :: LastOfName(schedules, i) && schedules[i].name == name {
      var i := ListedIsLast(schedules, name);
    }
  }
}

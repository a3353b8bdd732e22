/**
The SQLite migration runner: a version table of one row, migrations applied one
transaction at a time, runs that crash anywhere and resume, and builds whose lists of
versions need not extend one another.
*/
module Migrations {
  // What becomes of one migration's transaction: it commits, it fails and is
  // rolled back, or it commits and the process dies before the next one.
  datatype Fate = Commits | Fails | DiesAfter

  // One start of the application: which build, and what happens to each migration.
  datatype Start = Start(build: seq<nat>, fate: nat -> Fate)

  // A build lists its versions in ascending order.
  ghost predicate Ascending(versions: seq<nat>) {
    && (forall i | 0 <= i < |versions| :: versions[i] > 0)
    && (forall i, j | 0 <= i < j < |versions| :: versions[i] < versions[j])
  }

  function Last(versions: seq<nat>): nat {
    if versions == [] then 0 else versions[|versions| - 1]
  }

  // The build's versions above v: those a run attempts.
  function Above(build: seq<nat>, v: nat): seq<nat> {
    if build == [] then []
    else (if build[0] > v then [build[0]] else []) + Above(build[1..], v)
  }

  // Those of them that land.
  function Landing(todo: seq<nat>, fate: nat -> Fate): seq<nat> {
    if todo == [] then []
    else
      match fate(todo[0])
      case Fails => []
      case DiesAfter => [todo[0]]
      case Commits => [todo[0]] + Landing(todo[1..], fate)
  }

  ghost predicate Completes(todo: seq<nat>, fate: nat -> Fate) {
    forall b | b in todo :: fate(b) == Commits
  }

  ghost predicate HasAll(applied: seq<nat>, build: seq<nat>) {
    forall b | b in build :: b in applied
  }

  // applied: the migrations whose effects the schema has, in the order applied.
  class Schema {
    var hasTable: bool
    var rows: seq<nat>
    var applied: seq<nat>

    constructor ()
      ensures Valid() && !hasTable && rows == [] && applied == []
    {
      hasTable, rows, applied := false, [], [];
    }

    ghost predicate Valid()
      reads this
    {
      |rows| <= 1 && (rows != [] ==> hasTable && rows[0] > 0)
    }

    // The stored version; no row reads as 0.
    ghost function Version(): nat
      reads this
    {
      if rows == [] then 0 else rows[0]
    }

    // SELECT version ... LIMIT 1
    method CurrentVersion() returns (v: nat)
      ensures v == Version()
    {
      v := if rows == [] then 0 else rows[0];
    }

    // One migration and the version row, in one transaction.
    method Apply(version: nat, lastApplied: nat, fate: Fate) returns (ok: bool)
      modifies this`rows, this`applied
      ensures ok <==> fate == Commits
      ensures fate == Fails ==> rows == old(rows) && applied == old(applied)
      ensures fate != Fails ==> applied == old(applied) + [version]
      ensures fate != Fails ==>
                if lastApplied == 0 then rows == old(rows) + [version]
                else |rows| == |old(rows)| && forall i | 0 <= i < |rows| :: rows[i] == version
    {
      if fate == Fails {
        return false;
      }
      applied := applied + [version];
      rows := if lastApplied == 0 then rows + [version] else seq(|rows|, _ => version);
      ok := fate == Commits;
    }

    // A run of any build on any schema. It attempts the versions above the stored
    // one, in order, and the row ends at the last that landed; a completed run has
    // added exactly these, and the schema then has all of the build's versions
    // exactly when it already had those that were skipped.
    method RunMigrations(build: seq<nat>, fate: nat -> Fate) returns (ok: bool)
      requires Ascending(build) && Valid()
      modifies this
      ensures Valid()
      ensures var landed := Landing(Above(build, old(Version())), fate);
              applied == old(applied) + landed && rows == if landed == [] then old(rows) else [Last(landed)]
      ensures ok <==> Completes(Above(build, old(Version())), fate)
      ensures ok ==> forall b :: b in applied <==> b in old(applied) || (b in build && b > old(Version()))
      ensures ok ==> (HasAll(applied, build) <==>
                        forall b | b in build && b <= old(Version()) :: b in old(applied))
    {
      ghost var v := Version();
      if !hasTable {
        hasTable := true;
      }
      var current := CurrentVersion();
      ghost var done: seq<nat> := [];
      assert build[0..] == build;
      for i := 0 to |build|
        invariant hasTable && applied == old(applied) + done
        invariant rows == if done == [] then old(rows) else [Last(done)]
        invariant Progress(build, v, fate, i, done, current)
      {
        if build[i] <= current {
          Skips(build, v, fate, i, done, current);
          continue;
        }
        Attempts(build, v, fate, i, done, current);
        assert |rows| == if current == 0 then 0 else 1;
        var landed := Apply(build[i], current, fate(build[i]));
        assert fate(build[i]) != Fails ==> rows == [build[i]];
        MoveOver(old(applied), done, build[i]);
        if !landed {
          return false;
        }
        done := done + [build[i]];
        current := build[i];
      }
      ok := true;
      AllDone(build, v, fate, done, current);
      AddsAbove(old(applied), build, v);
    }

    // The verifier compares the stored version with the build's last.
    method Verify(build: seq<nat>) returns (ok: bool)
      requires Valid() && build != []
      ensures ok <==> Version() >= Last(build)
    {
      var current := 0;
      if hasTable {
        current := CurrentVersion();
      }
      ok := current >= build[|build| - 1];
    }
  }

  /******* One run *******/

  // Before the i-th migration of a run that found version v: done has landed, and
  // what is left are the versions from there on above v.
  ghost predicate Progress(build: seq<nat>, v: nat, fate: nat -> Fate, i: nat, done: seq<nat>, current: nat)
  {
    && i <= |build| && current == (if done == [] then v else Last(done))
    && (done != [] ==> current > v && forall j | i <= j < |build| :: build[j] > current)
    && Above(build, v) == done + Above(build[i..], v) && Completes(done, fate)
    && Landing(Above(build, v), fate) == done + Landing(Above(build[i..], v), fate)
  }

  lemma Skips(build: seq<nat>, v: nat, fate: nat -> Fate, i: nat, done: seq<nat>, current: nat)
    requires Progress(build, v, fate, i, done, current) && i < |build| && build[i] <= current
    ensures Progress(build, v, fate, i + 1, done, current)
  {
    assert build[i..][1..] == build[i + 1..];
    assert Above(build[i..], v) == Above(build[i + 1..], v);
  }

  lemma AboveStep(build: seq<nat>, v: nat, i: nat, fate: nat -> Fate)
    requires i < |build| && build[i] > v
    ensures Above(build[i..], v) == [build[i]] + Above(build[i + 1..], v)
    ensures Landing(Above(build[i..], v), fate) ==
            match fate(build[i])
            case Fails => []
            case DiesAfter => [build[i]]
            case Commits => [build[i]] + Landing(Above(build[i + 1..], v), fate)
  {
    assert build[i..][1..] == build[i + 1..];
    assert Above(build[i..], v)[1..] == Above(build[i + 1..], v);
  }

  lemma Attempts(build: seq<nat>, v: nat, fate: nat -> Fate, i: nat, done: seq<nat>, current: nat)
    requires Progress(build, v, fate, i, done, current) && Ascending(build) && i < |build| && build[i] > current
    ensures fate(build[i]) == Commits ==> Progress(build, v, fate, i + 1, done + [build[i]], build[i])
    ensures fate(build[i]) == Fails ==> Landing(Above(build, v), fate) == done
    ensures fate(build[i]) == DiesAfter ==> Landing(Above(build, v), fate) == done + [build[i]]
    ensures fate(build[i]) != Commits ==> !Completes(Above(build, v), fate)
  {
    AboveStep(build, v, i, fate);
    if fate(build[i]) == Commits {
      var rest := Above(build[i + 1..], v);
      MoveIn(done, build[i], rest);
      MoveIn(done, build[i], Landing(rest, fate));
      OneMore(done, build[i], fate);
    } else {
      assert Above(build, v)[|done|] == build[i];
    }
  }

  lemma MoveOver(a: seq<nat>, b: seq<nat>, x: nat)
    ensures (a + b) + [x] == a + (b + [x])
  {
  }

  lemma MoveIn(a: seq<nat>, x: nat, b: seq<nat>)
    ensures a + ([x] + b) == (a + [x]) + b
  {
  }

  lemma OneMore(done: seq<nat>, b: nat, fate: nat -> Fate)
    requires Completes(done, fate) && fate(b) == Commits
    ensures Completes(done + [b], fate) && Last(done + [b]) == b
  {
  }

  lemma AllDone(build: seq<nat>, v: nat, fate: nat -> Fate, done: seq<nat>, current: nat)
    requires Progress(build, v, fate, |build|, done, current)
    ensures Completes(Above(build, v), fate) && Above(build, v) == done == Landing(Above(build, v), fate)
  {
    assert build[|build|..] == [];
  }

  lemma AddsAbove(before: seq<nat>, build: seq<nat>, v: nat)
    ensures var after := before + Above(build, v);
            && (forall b :: b in after <==> b in before || (b in build && b > v))
            && (HasAll(after, build) <==> forall b | b in build && b <= v :: b in before)
  {
    AboveHas(build, v);
  }

  lemma {:induction false} AboveHas(build: seq<nat>, v: nat)
    ensures forall b :: b in Above(build, v) <==> b in build && b > v
    decreases |build|
  {
    if build != [] {
      AboveHas(build[1..], v);
      assert build == [build[0]] + build[1..];
    }
  }

  lemma {:induction false} AboveAscends(build: seq<nat>, v: nat)
    requires Ascending(build)
    ensures Ascending(Above(build, v))
    decreases |build|
  {
    if build != [] {
      AboveAscends(build[1..], v);
      AboveHas(build[1..], v);
      var rest := Above(build[1..], v);
      forall j | 0 <= j < |rest| ensures build[0] < rest[j] {
        assert rest[j] in build[1..];
      }
    }
  }

  lemma {:induction false} AllLand(todo: seq<nat>, fate: nat -> Fate)
    requires Completes(todo, fate)
    ensures Landing(todo, fate) == todo
    decreases |todo|
  {
    if todo != [] {
      AllLand(todo[1..], fate);
    }
  }

  lemma {:induction false} LandingIsPrefix(todo: seq<nat>, fate: nat -> Fate)
    ensures Landing(todo, fate) <= todo && forall b | b in Landing(todo, fate) :: b in todo
    decreases |todo|
  {
    if todo != [] {
      LandingIsPrefix(todo[1..], fate);
    }
  }

  // They are the ones before the first that does not commit, with that one if it died
  // only after its commit.
  lemma {:induction false} LandingStops(todo: seq<nat>, fate: nat -> Fate)
    ensures var n := |Landing(todo, fate)|;
            && n <= |todo| && Landing(todo, fate) == todo[..n]
            && (forall i | 0 <= i < n - 1 :: fate(todo[i]) == Commits)
            && (n > 0 ==> fate(todo[n - 1]) != Fails)
            && (n < |todo| ==> fate(todo[n]) == Fails || (n > 0 && fate(todo[n - 1]) == DiesAfter))
            && (n > 0 && fate(todo[n - 1]) == Commits && n < |todo| ==> fate(todo[n]) == Fails)
    decreases |todo|
  {
    if todo != [] && fate(todo[0]) == Commits {
      LandingStops(todo[1..], fate);
      var n := |Landing(todo, fate)|;
      assert todo[..n] == [todo[0]] + todo[1..][..n - 1];
      forall i | 0 <= i < n - 1 ensures fate(todo[i]) == Commits {
        assert i > 0 ==> todo[i] == todo[1..][i - 1];
      }
    }
  }

  /******* Any sequence of starts *******/

  // What is applied after the starts, of any builds, with crashes anywhere.
  function After(starts: seq<Start>): seq<nat> {
    if starts == [] then []
    else
      var before, last := After(starts[..|starts| - 1]), starts[|starts| - 1];
      before + Landing(Above(last.build, Last(before)), last.fate)
  }

  ghost predicate Builds(starts: seq<Start>) {
    forall i | 0 <= i < |starts| :: Ascending(starts[i].build) && starts[i].build != []
  }

  // The last start ran to its end.
  ghost predicate LastCompletes(starts: seq<Start>) {
    starts != [] &&
    Completes(Above(starts[|starts| - 1].build, Last(After(starts[..|starts| - 1]))), starts[|starts| - 1].fate)
  }

  // The starts, each followed by the verifier: the table has at most one row, the
  // last version applied.
  method RunAll(db: Schema, starts: seq<Start>) returns (ok: bool, verified: bool)
    requires Builds(starts) && db.Valid() && db.rows == [] && db.applied == []
    modifies db
    ensures db.Valid() && db.applied == After(starts) && db.Version() == Last(After(starts))
    ensures starts != [] ==> (ok <==> LastCompletes(starts))
    ensures starts != [] ==> (verified <==> Last(After(starts)) >= Last(starts[|starts| - 1].build))
  {
    ok, verified := true, true;
    assert starts[..0] == [];
    for i := 0 to |starts|
      invariant db.Valid() && db.applied == After(starts[..i]) && db.Version() == Last(After(starts[..i]))
      invariant i > 0 ==> (ok <==> LastCompletes(starts[..i]))
      invariant i > 0 ==> (verified <==> Last(After(starts[..i])) >= Last(starts[i - 1].build))
    {
      assert starts[..i + 1][..i] == starts[..i] && starts[..i + 1][i] == starts[i];
      LastAppended(After(starts[..i]), Landing(Above(starts[i].build, db.Version()), starts[i].fate));
      ok := db.RunMigrations(starts[i].build, starts[i].fate);
      verified := db.Verify(starts[i].build);
    }
    assert starts[..|starts|] == starts;
  }

  lemma LastAppended(a: seq<nat>, b: seq<nat>)
    ensures Last(a + b) == if b == [] then Last(a) else Last(b)
  {
    assert b == [] ==> a + b == a;
  }

  // Each version is applied at most once, and in ascending order.
  lemma {:induction false} AppliedAscends(starts: seq<Start>)
    requires Builds(starts)
    ensures Ascending(After(starts))
    decreases |starts|
  {
    if starts != [] {
      var before, last := After(starts[..|starts| - 1]), starts[|starts| - 1];
      AppliedAscends(starts[..|starts| - 1]);
      AboveAscends(last.build, Last(before));
      AboveHas(last.build, Last(before));
      LandingIsPrefix(Above(last.build, Last(before)), last.fate);
      Joined(before, Landing(Above(last.build, Last(before)), last.fate));
    }
  }

  lemma Joined(a: seq<nat>, b: seq<nat>)
    requires Ascending(a) && Ascending(b) && forall x | x in b :: x > Last(a)
    ensures Ascending(a + b)
  {
    forall i, j | 0 <= i < j < |a + b| ensures (a + b)[i] < (a + b)[j] {
      if i < |a| <= j {
        assert b[j - |a|] in b && (i < |a| - 1 ==> a[i] < a[|a| - 1]);
      }
    }
  }

  // Whoever completes is accepted by its verifier. It has all of its versions exactly
  // when those at or below the version it found were already there.
  lemma CompletedHasAllIff(starts: seq<Start>)
    requires Builds(starts) && LastCompletes(starts)
    ensures var before, build := After(starts[..|starts| - 1]), starts[|starts| - 1].build;
            && Last(After(starts)) >= Last(build)
            && (HasAll(After(starts), build) <==> forall b | b in build && b <= Last(before) :: b in before)
  {
    var before, last := After(starts[..|starts| - 1]), starts[|starts| - 1];
    AboveHas(last.build, Last(before));
    AllLand(Above(last.build, Last(before)), last.fate);
    AddsAbove(before, last.build, Last(before));
    AppliedAscends(starts);
    if Last(last.build) > Last(before) {
      InAscending(After(starts), Last(last.build));
    } else {
      LastGrows(starts);
    }
  }

  // The stored version never goes back.
  lemma LastGrows(starts: seq<Start>)
    requires starts != []
    ensures Last(After(starts)) >= Last(After(starts[..|starts| - 1]))
  {
    var before, last := After(starts[..|starts| - 1]), starts[|starts| - 1];
    var landed := Landing(Above(last.build, Last(before)), last.fate);
    AboveHas(last.build, Last(before));
    LandingIsPrefix(Above(last.build, Last(before)), last.fate);
    LastAppended(before, landed);
    assert landed != [] ==> Last(landed) in landed;
  }

  lemma InAscending(a: seq<nat>, x: nat)
    requires Ascending(a) && (x in a || x == 0)
    ensures x <= Last(a)
  {
    if x in a {
      var i :| 0 <= i < |a| && a[i] == x;
      assert i < |a| - 1 ==> a[i] < a[|a| - 1];
    }
  }

  // A version that the stored one has passed is never applied, whatever is started
  // afterwards.
  lemma {:induction false} PassedForGood(starts: seq<Start>, more: seq<Start>, b: nat)
    requires b <= Last(After(starts)) && b !in After(starts)
    ensures b <= Last(After(starts + more)) && b !in After(starts + more)
    decreases |more|
  {
    if more == [] {
      assert starts + more == starts;
    } else {
      var fewer := more[..|more| - 1];
      PassedForGood(starts, fewer, b);
      assert (starts + more)[..|starts + more| - 1] == starts + fewer;
      PassedStep(starts + more, b);
    }
  }

  lemma PassedStep(starts: seq<Start>, b: nat)
    requires starts != []
    requires var before := After(starts[..|starts| - 1]); b <= Last(before) && b !in before
    ensures b <= Last(After(starts)) && b !in After(starts)
  {
    var before, last := After(starts[..|starts| - 1]), starts[|starts| - 1];
    AboveHas(last.build, Last(before));
    LandingIsPrefix(Above(last.build, Last(before)), last.fate);
    LastGrows(starts);
  }

  // A build that inserts versions below the last one of a build that was here before,
  // as 42 to 47 were inserted below 1001: its run completes, its verifier accepts, and
  // the inserted versions are not applied, then or ever.
  lemma InsertedVersionsAreLost(first: Start, second: Start, more: seq<Start>, b: nat)
    requires Builds([first, second])
    requires Completes(first.build, first.fate) && Completes(second.build, second.fate)
    requires b in second.build && b !in first.build && b < Last(first.build)
    ensures LastCompletes([first, second]) && Last(After([first, second])) >= Last(second.build)
    ensures !HasAll(After([first, second]), second.build)
    ensures b !in After([first, second] + more)
  {
    var one, two := [first], [first, second];
    assert one[..0] == [] && two[..1] == one;
    assert Ascending(two[0].build) && Ascending(two[1].build);
    FirstApplies(first);
    AboveHas(second.build, Last(After(one)));
    CompletedHasAllIff(two);
    PassedForGood(one, [second], b);
    assert one + [second] == two;
    PassedForGood(two, more, b);
  }

  lemma FirstApplies(first: Start)
    requires Ascending(first.build) && Completes(first.build, first.fate)
    ensures After([first]) == first.build
  {
    assert [first][..0] == [];
    AllAbove(first.build, 0);
    AllLand(first.build, first.fate);
  }

  lemma {:induction false} AllAbove(build: seq<nat>, v: nat)
    requires forall b | b in build :: b > v
    ensures Above(build, v) == build
    decreases |build|
  {
    if build != [] {
      assert build[0] in build && forall b | b in build[1..] :: b in build;
      AllAbove(build[1..], v);
      assert build == [build[0]] + build[1..];
    }
  }

  // If every build is a first part of one list, what is applied always is one too,
  // and the verifier of any of them accepts exactly the schemas that have all of its
  // versions.
  lemma {:induction false} PrefixBuildsAreVerified(versions: seq<nat>, starts: seq<Start>, build: seq<nat>)
    requires Ascending(versions) && build <= versions && build != []
    requires Builds(starts) && forall i | 0 <= i < |starts| :: starts[i].build <= versions
    ensures After(starts) <= versions
    ensures Last(After(starts)) >= Last(build) <==> HasAll(After(starts), build)
    decreases |starts|
  {
    if starts != [] {
      var before, last := After(starts[..|starts| - 1]), starts[|starts| - 1];
      PrefixBuildsAreVerified(versions, starts[..|starts| - 1], build);
      PrefixAbove(versions, before, last.build);
      LandingIsPrefix(Above(last.build, Last(before)), last.fate);
    }
    PrefixesCompare(versions, After(starts), build);
  }

  lemma PrefixAbove(versions: seq<nat>, before: seq<nat>, build: seq<nat>)
    requires Ascending(versions) && before <= versions && build <= versions
    ensures before + Above(build, Last(before)) <= versions
  {
    if |before| <= |build| {
      AtOrBelow(versions, before, build, |before|);
      Beyond(versions, before, build);
      NoneAbove(build, Last(before), |before|);
      AllAbove(build[|before|..], Last(before));
      assert before + build[|before|..] == build;
    } else {
      AtOrBelow(versions, before, build, |build|);
      NoneAbove(build, Last(before), |build|);
      assert build[|build|..] == [] && before + [] == before;
    }
  }

  lemma AtOrBelow(versions: seq<nat>, before: seq<nat>, build: seq<nat>, n: nat)
    requires Ascending(versions) && before <= versions && build <= versions && n <= |before| && n <= |build|
    ensures forall i | 0 <= i < n :: build[i] <= Last(before)
  {
    forall i | 0 <= i < n ensures build[i] <= Last(before) {
      assert build[i] == versions[i] && (i < |before| - 1 ==> versions[i] < versions[|before| - 1]);
    }
  }

  lemma Beyond(versions: seq<nat>, before: seq<nat>, build: seq<nat>)
    requires Ascending(versions) && before <= versions && build <= versions && |before| <= |build|
    ensures forall b | b in build[|before|..] :: b > Last(before)
  {
    forall b | b in build[|before|..] ensures b > Last(before) {
      var i :| |before| <= i < |build| && build[i] == b;
      assert build[i] == versions[i] && (before != [] ==> versions[|before| - 1] < versions[i]);
    }
  }

  lemma {:induction false} NoneAbove(build: seq<nat>, v: nat, n: nat)
    requires n <= |build| && forall i | 0 <= i < n :: build[i] <= v
    ensures Above(build, v) == Above(build[n..], v)
    decreases n
  {
    if n == 0 {
      assert build[0..] == build;
    } else {
      NoneAbove(build[1..], v, n - 1);
      assert build[1..][n - 1..] == build[n..];
    }
  }

  lemma PrefixesCompare(versions: seq<nat>, applied: seq<nat>, build: seq<nat>)
    requires Ascending(versions) && applied <= versions && build <= versions && build != []
    ensures Last(applied) >= Last(build) <==> HasAll(applied, build)
  {
    if |applied| >= |build| {
      assert |applied| > |build| ==> versions[|build| - 1] < versions[|applied| - 1];
      forall b | b in build ensures b in applied {
        var i :| 0 <= i < |build| && build[i] == b;
        assert applied[i] == b;
      }
    } else {
      assert applied != [] ==> versions[|applied| - 1] < versions[|build| - 1];
      forall i | 0 <= i < |applied| ensures applied[i] != Last(build) {
        assert versions[i] < versions[|build| - 1];
      }
      assert Last(build) in build;
    }
  }
}

/** `src/utils/urlParser.ts`: bringing a URL written by an older version of
    an overlay up to the current version, and running a parser's URL
    readers and writers.

    A migration function and the URL readers and writers are callbacks the
    overlay registers; they are parameters here. A migration function is
    given the parameters and answers whether it succeeded, together with the
    parameters as it left them. A reader updates the overlay's settings,
    of type `S`, from the parameters; a writer adds the settings to the
    parameters. */
module UrlMigration {
  import opened Js
  import opened SearchParams
  import opened JsMaps
  import opened SemVers

  datatype MigrationOutcome = MigrationOutcome(ok: bool, entries: map<string, string>)

  /** A `UrlPartMigration`. */
  type Migration = map<string, string> -> MigrationOutcome

  /** A `UrlParser`: the current version, the migration steps under the
      version text they lead to, and the URL readers and writers. */
  datatype UrlParser<!S> = UrlParser(
    currentVersion: string,
    migrationSteps: JsMap<seq<Migration>>,
    urlDeconstructors: seq<(S, map<string, string>) -> S>,
    urlConstructors: seq<(S, map<string, string>) -> map<string, string>>)

  /** The answer of the migration dialog: "denied", or anything else. */
  datatype DialogAnswer = Denied | Accepted

  /** How `tryUrlMigration` ends: by throwing (a version text `semver`
      cannot read, or a planned step with no key written the way the
      version writes itself), or with its boolean. */
  datatype MigrationResult = Threw | Finished(ok: bool)

  datatype Attempt = Attempt(result: MigrationResult, entries: map<string, string>)

  /** `searchParams.get("v") ?? "1.0.0"` */
  function UrlVersionText(entries: map<string, string>): (t: string)
    ensures "v" !in entries ==> t == "1.0.0"
    ensures "v" in entries ==> t == entries["v"]
  {
    match Lookup(entries, "v")
    case None => "1.0.0"
    case Some(t) => t
  }

  // -------------------------------------------------------------------
  // Choosing the steps

  /** Ascending, equal versions side by side. */
  predicate Sorted(s: seq<SemVer>) {
    forall i, j :: 0 <= i < j < |s| ==> AtMost(s[i], s[j])
  }

  predicate StrictlySorted(s: seq<SemVer>) {
    forall i, j :: 0 <= i < j < |s| ==> Before(s[i], s[j])
  }

  lemma AtMostTransitive(a: SemVer, b: SemVer, c: SemVer)
    requires AtMost(a, b) && AtMost(b, c)
    ensures AtMost(a, c)
  {
    if a != b && b != c {
      BeforeTransitive(a, b, c);
    }
  }

  /** One insertion into a sorted list of versions, before the first one
      that is not smaller. */
  function Insert(v: SemVer, s: seq<SemVer>): (r: seq<SemVer>)
    requires Sorted(s)
    ensures Sorted(r) && multiset(r) == multiset(s) + multiset{v}
    decreases |s|
  {
    if |s| == 0 then [v]
    else if AtMost(v, s[0]) then
      assert forall j :: 0 <= j < |s| ==> AtMost(v, s[j]) by {
        forall j | 0 <= j < |s| ensures AtMost(v, s[j]) {
          if j > 0 {
            AtMostTransitive(v, s[0], s[j]);
          }
        }
      }
      [v] + s
    else
      assert s == [s[0]] + s[1..];
      var rest := Insert(v, s[1..]);
      Trichotomy(v, s[0]);
      assert forall x :: x in rest ==> AtMost(s[0], x) by {
        forall x | x in rest ensures AtMost(s[0], x) {
          assert x in multiset(rest);
          if x != v {
            assert x in multiset(s[1..]);
          }
        }
      }
      [s[0]] + rest
  }

  /** `.sort((a, b) => a.compare(b))`. Versions that compare equal are
      equal here, so the order among them does not show. */
  function Sort(vs: seq<SemVer>): (r: seq<SemVer>)
    ensures Sorted(r) && multiset(r) == multiset(vs)
    decreases |vs|
  {
    if |vs| == 0 then []
    else
      var prefix := vs[..|vs| - 1];
      assert vs == prefix + [vs[|vs| - 1]];
      Insert(vs[|vs| - 1], Sort(prefix))
  }

  /** `gt(v, urlVersion) && !gt(v, parserVersion)` */
  predicate InRange(v: SemVer, lo: SemVer, hi: SemVer) {
    Before(lo, v) && AtMost(v, hi)
  }

  /** `.filter(v => gt(v, urlVersion) && !gt(v, parserVersion))`: every
      copy of a version in range is kept, every other version dropped. */
  function Within(s: seq<SemVer>, lo: SemVer, hi: SemVer): (r: seq<SemVer>)
    requires Sorted(s)
    ensures Sorted(r)
    ensures forall v :: multiset(r)[v] == if InRange(v, lo, hi) then multiset(s)[v] else 0
    decreases |s|
  {
    if |s| == 0 then []
    else
      var tail := s[1..];
      assert s == [s[0]] + tail;
      var rest := Within(tail, lo, hi);
      if InRange(s[0], lo, hi) then
        assert forall x :: x in rest ==> AtMost(s[0], x) by {
          forall x | x in rest ensures AtMost(s[0], x) {
            assert x in multiset(rest);
            var j :| 0 <= j < |tail| && tail[j] == x;
            assert s[j + 1] == x;
          }
        }
        [s[0]] + rest
      else rest
  }

  /** `Object.keys(migrationSteps).map(v => new SemVer(v))`; `None` where a
      key cannot be read. */
  function ParseAll(keys: seq<string>): (r: Option<seq<SemVer>>)
    ensures r.Some? <==> forall i :: 0 <= i < |keys| ==> ParseVersion(keys[i]).Some?
    ensures r.Some? ==> |r.value| == |keys| && forall i :: 0 <= i < |keys| ==> ParseVersion(keys[i]) == Some(r.value[i])
    decreases |keys|
  {
    if |keys| == 0 then Some([])
    else
      var rest := ParseAll(keys[1..]);
      match ParseVersion(keys[0])
      case None => None
      case Some(v) =>
        if rest.None? then
          assert ParseVersion(keys[1..][0]).None? ==> ParseVersion(keys[1]).None?;
          None
        else Some([v] + rest.value)
  }

  /** The versions whose steps run, in the order they run: one per key
      read as a version in range, so two keys that read as the same
      version (`2.0.0` and `v2.0.0`) plan that version twice. */
  function Plan(steps: JsMap<seq<Migration>>, urlVersion: SemVer, current: SemVer): (r: Option<seq<SemVer>>)
    ensures r.None? <==> exists i :: 0 <= i < |steps.keys| && ParseVersion(steps.keys[i]).None?
    ensures r.Some? ==> Sorted(r.value)
    ensures r.Some? ==> forall v ::
      multiset(r.value)[v] == if InRange(v, urlVersion, current) then multiset(ParseAll(steps.keys).value)[v] else 0
  {
    var parsed := ParseAll(steps.keys);
    if parsed.None? then None
    else Some(Within(Sort(parsed.value), urlVersion, current))
  }

  /** The steps that run are exactly the versions some key reads as, above
      the URL's version and up to the current one. */
  lemma PlanIsExact(steps: JsMap<seq<Migration>>, urlVersion: SemVer, current: SemVer, v: SemVer)
    requires Plan(steps, urlVersion, current).Some?
    ensures v in Plan(steps, urlVersion, current).value <==>
      (exists i :: 0 <= i < |steps.keys| && ParseVersion(steps.keys[i]) == Some(v)) && InRange(v, urlVersion, current)
  {
    var plan := Plan(steps, urlVersion, current).value;
    var vs := ParseAll(steps.keys).value;
    assert v in plan <==> multiset(plan)[v] > 0;
    assert v in vs <==> multiset(vs)[v] > 0;
    if v in vs {
      var i :| 0 <= i < |vs| && vs[i] == v;
      assert ParseVersion(steps.keys[i]) == Some(v);
    }
  }

  /** Keys written the way `version.version` writes a version. */
  predicate CanonicalKeys(keys: seq<string>) {
    forall i :: 0 <= i < |keys| ==> ParseVersion(keys[i]).Some? && VersionText(ParseVersion(keys[i]).value) == keys[i]
  }

  lemma {:induction false} DistinctCountsOnce(s: seq<SemVer>)
    requires forall i, j :: 0 <= i < j < |s| ==> s[i] != s[j]
    ensures forall v :: multiset(s)[v] <= 1
    decreases |s|
  {
    if |s| > 0 {
      DistinctCountsOnce(s[1..]);
      assert s == [s[0]] + s[1..];
      assert s[0] !in s[1..];
    }
  }

  lemma OnceIsDistinct(s: seq<SemVer>)
    requires forall v :: multiset(s)[v] <= 1
    ensures forall i, j :: 0 <= i < j < |s| ==> s[i] != s[j]
  {
    forall i, j | 0 <= i < j < |s| ensures s[i] != s[j] {
      assert s == s[..j] + s[j..];
      assert s[i] in s[..j] && s[j] in s[j..];
      assert multiset(s)[s[j]] == multiset(s[..j])[s[j]] + multiset(s[j..])[s[j]];
    }
  }

  /** With distinct keys in canonical form a plan exists, holds each
      version once, and finds each version's step under its text. */
  lemma CanonicalPlan(steps: JsMap<seq<Migration>>, urlVersion: SemVer, current: SemVer)
    requires steps.Valid() && CanonicalKeys(steps.keys)
    ensures Plan(steps, urlVersion, current).Some?
    ensures StrictlySorted(Plan(steps, urlVersion, current).value)
    ensures forall v :: v in Plan(steps, urlVersion, current).value ==> VersionText(v) in steps.values
  {
    var plan := Plan(steps, urlVersion, current).value;
    var vs := ParseAll(steps.keys).value;
    assert forall i :: 0 <= i < |vs| ==> VersionText(vs[i]) == steps.keys[i];
    DistinctCountsOnce(vs);
    OnceIsDistinct(plan);
    forall v | v in plan ensures VersionText(v) in steps.values {
      PlanIsExact(steps, urlVersion, current, v);
    }
  }

  // -------------------------------------------------------------------
  // Running the steps

  /** The functions of one step, in order, stopping at the first failure. */
  function RunStep(fns: seq<Migration>, e: map<string, string>): MigrationOutcome
    decreases |fns|
  {
    if |fns| == 0 then MigrationOutcome(true, e)
    else
      var o := fns[0](e);
      if !o.ok then o else RunStep(fns[1..], o.entries)
  }

  /** The steps of a plan, in order. A step is looked up under its version's
      canonical text, and iterating the `undefined` found where no key is
      written that way throws. `v` is stamped after each completed step,
      and the first failure or throw ends the run with what was done so
      far. */
  function RunPlan(steps: map<string, seq<Migration>>, plan: seq<SemVer>, e: map<string, string>): Attempt
    decreases |plan|
  {
    if |plan| == 0 then Attempt(Finished(true), e)
    else if VersionText(plan[0]) !in steps then Attempt(Threw, e)
    else
      var o := RunStep(steps[VersionText(plan[0])], e);
      if !o.ok then Attempt(Finished(false), o.entries)
      else RunPlan(steps, plan[1..], o.entries["v" := VersionText(plan[0])])
  }

  /** A plan whose every step is found never throws. */
  lemma {:induction false} RunPlanFinds(steps: map<string, seq<Migration>>, plan: seq<SemVer>, e: map<string, string>)
    requires forall v :: v in plan ==> VersionText(v) in steps
    ensures RunPlan(steps, plan, e).result != Threw
    decreases |plan|
  {
    if |plan| > 0 {
      var o := RunStep(steps[VersionText(plan[0])], e);
      RunPlanFinds(steps, plan[1..], o.entries["v" := VersionText(plan[0])]);
    }
  }

  /** `tryUrlMigration(urlParser, params, showMigrationDialog)`: `dialog` is
      `None` without a dialog, and otherwise the answer given. */
  function Migrate<S>(parser: UrlParser<S>, entries: map<string, string>, dialog: Option<DialogAnswer>): Attempt
  {
    match ParseVersion(UrlVersionText(entries))
    case None => Attempt(Threw, entries)
    case Some(urlVersion) =>
      match ParseVersion(parser.currentVersion)
      case None => Attempt(Threw, entries)
      case Some(current) =>
        if AtMost(current, urlVersion) then Attempt(Finished(true), entries)
        else if dialog == Some(Denied) then Attempt(Finished(false), entries)
        else
          match Plan(parser.migrationSteps, urlVersion, current)
          case None => Attempt(Threw, entries)
          case Some(plan) =>
            var a := RunPlan(parser.migrationSteps.values, plan, entries);
            if a.result == Finished(true) then Attempt(Finished(true), a.entries["v" := parser.currentVersion])
            else a
  }

  /** A URL as recent as the parser, or a migration the user denies, leaves
      the parameters untouched. */
  lemma NothingToMigrate<S>(parser: UrlParser<S>, entries: map<string, string>, dialog: Option<DialogAnswer>)
    requires ParseVersion(UrlVersionText(entries)).Some? && ParseVersion(parser.currentVersion).Some?
    ensures var urlVersion := ParseVersion(UrlVersionText(entries)).value;
      var current := ParseVersion(parser.currentVersion).value;
      && (AtMost(current, urlVersion) ==> Migrate(parser, entries, dialog) == Attempt(Finished(true), entries))
      && (Before(urlVersion, current) && dialog == Some(Denied) ==> Migrate(parser, entries, dialog) == Attempt(Finished(false), entries))
  {
    var urlVersion := ParseVersion(UrlVersionText(entries)).value;
    var current := ParseVersion(parser.currentVersion).value;
    Trichotomy(urlVersion, current);
  }

  /** A URL older than the parser, with the migration not denied, runs
      the plan and stamps the parser's version when every step succeeds. */
  lemma MigrateRunsPlan<S>(parser: UrlParser<S>, entries: map<string, string>, dialog: Option<DialogAnswer>,
                           urlVersion: SemVer, current: SemVer, plan: seq<SemVer>)
    requires ParseVersion(UrlVersionText(entries)) == Some(urlVersion)
    requires ParseVersion(parser.currentVersion) == Some(current)
    requires Before(urlVersion, current) && dialog != Some(Denied)
    requires Plan(parser.migrationSteps, urlVersion, current) == Some(plan)
    ensures Migrate(parser, entries, dialog) ==
      (var a := RunPlan(parser.migrationSteps.values, plan, entries);
       if a.result == Finished(true) then Attempt(Finished(true), a.entries["v" := parser.currentVersion]) else a)
  {
    Trichotomy(urlVersion, current);
  }

  /** With readable versions and distinct step keys in canonical form a
      migration never throws. */
  lemma CanonicalKeysNeverThrow<S>(parser: UrlParser<S>, entries: map<string, string>, dialog: Option<DialogAnswer>)
    requires parser.migrationSteps.Valid() && CanonicalKeys(parser.migrationSteps.keys)
    requires ParseVersion(UrlVersionText(entries)).Some? && ParseVersion(parser.currentVersion).Some?
    ensures Migrate(parser, entries, dialog).result != Threw
  {
    var urlVersion := ParseVersion(UrlVersionText(entries)).value;
    var current := ParseVersion(parser.currentVersion).value;
    if !AtMost(current, urlVersion) && dialog != Some(Denied) {
      Trichotomy(urlVersion, current);
      CanonicalPlan(parser.migrationSteps, urlVersion, current);
      var plan := Plan(parser.migrationSteps, urlVersion, current).value;
      RunPlanFinds(parser.migrationSteps.values, plan, entries);
      MigrateRunsPlan(parser, entries, dialog, urlVersion, current, plan);
    }
  }

  /** A URL stamped `v2.0.0` is read as version 2.0.0, so with step keys in
      canonical form its migration does not throw. */
  lemma PrefixedUrlVersionMigrates<S>(parser: UrlParser<S>, entries: map<string, string>, dialog: Option<DialogAnswer>)
    requires parser.migrationSteps.Valid() && CanonicalKeys(parser.migrationSteps.keys)
    requires ParseVersion(parser.currentVersion).Some?
    requires Lookup(entries, "v") == Some("v2.0.0")
    ensures Migrate(parser, entries, dialog).result != Threw
  {
    PrefixedVersion();
    CanonicalKeysNeverThrow(parser, entries, dialog);
  }

  lemma ParseAllCons(k: string, ks: seq<string>, v: SemVer)
    requires ParseVersion(k) == Some(v) && ParseAll(ks).Some?
    ensures ParseAll([k] + ks) == Some([v] + ParseAll(ks).value)
  {
    assert ([k] + ks)[0] == k && ([k] + ks)[1..] == ks;
  }

  /** Versions that are all one version are planned as they are when that
      version is in range, and not at all otherwise. */
  lemma PlanOfOneVersion(steps: JsMap<seq<Migration>>, lo: SemVer, hi: SemVer, v: SemVer)
    requires ParseAll(steps.keys).Some?
    requires forall w :: w in ParseAll(steps.keys).value ==> w == v
    ensures Plan(steps, lo, hi) == Some(if InRange(v, lo, hi) then ParseAll(steps.keys).value else [])
  {
    var plan := Plan(steps, lo, hi).value;
    SameCounts(plan, ParseAll(steps.keys).value, lo, hi, v);
  }

  lemma SameCounts(plan: seq<SemVer>, vs: seq<SemVer>, lo: SemVer, hi: SemVer, v: SemVer)
    requires forall w :: w in vs ==> w == v
    requires forall w :: multiset(plan)[w] == if InRange(w, lo, hi) then multiset(vs)[w] else 0
    ensures plan == if InRange(v, lo, hi) then vs else []
  {
    assert forall w :: w in plan ==> w == v by {
      forall w | w in plan ensures w == v {
        assert multiset(plan)[w] > 0;
        assert InRange(w, lo, hi) && multiset(vs)[w] > 0;
        assert w in vs;
      }
    }
    if InRange(v, lo, hi) {
      assert multiset(plan) == multiset(vs) by {
        forall w ensures multiset(plan)[w] == multiset(vs)[w] {
          if w != v {
            assert w !in vs;
          }
        }
      }
      assert |plan| == |multiset(plan)| == |multiset(vs)| == |vs|;
      forall i | 0 <= i < |vs| ensures plan[i] == vs[i] {
        assert plan[i] in plan && vs[i] in vs;
      }
    } else {
      assert multiset(plan) == multiset{} by {
        forall w ensures multiset(plan)[w] == 0 {
          if w != v {
            assert w !in vs;
          }
        }
      }
    }
  }

  /** A step registered as `v2.0.0` is planned as 2.0.0 but looked up as
      "2.0.0", which no key is: migrating a URL without `v` to 2.0.0
      throws. */
  lemma NonCanonicalKeyInRangeThrows<S>(parser: UrlParser<S>, fns: seq<Migration>)
    requires parser.migrationSteps == JsMap(["v2.0.0"], map["v2.0.0" := fns])
    requires parser.currentVersion == "2.0.0"
    ensures Migrate(parser, map[], None) == Attempt(Threw, map[])
  {
    var one, two := SemVer(1, 0, 0), SemVer(2, 0, 0);
    ReadVersions();
    PrefixedVersion();
    ParseAllCons("v2.0.0", [], two);
    assert ["v2.0.0"] + [] == ["v2.0.0"] && [two] + [] == [two];
    PlanOfOneVersion(parser.migrationSteps, one, two, two);
    assert RunPlan(parser.migrationSteps.values, [two], map[]) == Attempt(Threw, map[]);
    MigrateRunsPlan(parser, map[], None, one, two, [two]);
  }

  /** Out of range the same kind of key is never looked up: migrating a URL
      without `v` to 2.0.0 with a step registered as `v1.0.0` succeeds and
      only stamps the version. */
  lemma NonCanonicalKeyOutOfRangeIsHarmless<S>(parser: UrlParser<S>, fns: seq<Migration>)
    requires parser.migrationSteps == JsMap(["v1.0.0"], map["v1.0.0" := fns])
    requires parser.currentVersion == "2.0.0"
    ensures Migrate(parser, map[], None) == Attempt(Finished(true), map["v" := "2.0.0"])
  {
    var one, two := SemVer(1, 0, 0), SemVer(2, 0, 0);
    ReadVersions();
    ParseAllCons("v1.0.0", [], one);
    assert ["v1.0.0"] + [] == ["v1.0.0"] && [one] + [] == [one];
    PlanOfOneVersion(parser.migrationSteps, one, two, one);
    MigrateRunsPlan(parser, map[], None, one, two, []);
  }

  /** A step registered both as `2.0.0` and as `v2.0.0` is planned twice,
      so the step under "2.0.0" runs twice. */
  lemma DuplicateVersionIsPlannedTwice(steps: JsMap<seq<Migration>>)
    requires steps.keys == ["2.0.0", "v2.0.0"]
    ensures Plan(steps, SemVer(1, 0, 0), SemVer(2, 0, 0)) == Some([SemVer(2, 0, 0), SemVer(2, 0, 0)])
  {
    var two := SemVer(2, 0, 0);
    BothReadAsTwo();
    PlanOfOneVersion(steps, SemVer(1, 0, 0), two, two);
  }

  lemma BothReadAsTwo()
    ensures ParseAll(["2.0.0", "v2.0.0"]) == Some([SemVer(2, 0, 0), SemVer(2, 0, 0)])
  {
    var two := SemVer(2, 0, 0);
    ReadTwo();
    PrefixedVersion();
    ParseAllCons("v2.0.0", [], two);
    assert ["v2.0.0"] + [] == ["v2.0.0"] && [two] + [] == [two];
    ParseAllCons("2.0.0", ["v2.0.0"], two);
    assert ["2.0.0"] + ["v2.0.0"] == ["2.0.0", "v2.0.0"] && [two] + [two] == [two, two];
  }

  /** The versions the examples use read as themselves, and a URL without
      `v` reads as 1.0.0. */
  lemma ReadVersions()
    ensures ParseVersion("1.0.0") == Some(SemVer(1, 0, 0))
    ensures ParseVersion("2.0.0") == Some(SemVer(2, 0, 0))
    ensures ParseVersion("v1.0.0") == Some(SemVer(1, 0, 0))
    ensures UrlVersionText(map[]) == "1.0.0"
  {
    ReadOne();
    ReadTwo();
    PrefixedOne();
  }

  /** Within a step the functions run in list order: running `a + b` is
      running `a` and, unless it failed, then `b`. */
  lemma {:induction false} RunStepAppend(a: seq<Migration>, b: seq<Migration>, e: map<string, string>)
    ensures RunStep(a + b, e) == (var o := RunStep(a, e); if !o.ok then o else RunStep(b, o.entries))
    decreases |a|
  {
    if |a| == 0 {
      assert a + b == b;
    } else {
      assert (a + b)[0] == a[0] && (a + b)[1..] == a[1..] + b;
      var o := a[0](e);
      if o.ok {
        RunStepAppend(a[1..], b, o.entries);
        assert RunStep(a + b, e) == RunStep(a[1..] + b, o.entries);
        assert RunStep(a, e) == RunStep(a[1..], o.entries);
      }
    }
  }

  /** Steps run in plan order: a failing or throwing step ends the run with
      the changes and `v` stamps of the steps before it kept. */
  lemma {:induction false} RunPlanAppend(steps: map<string, seq<Migration>>, p: seq<SemVer>, q: seq<SemVer>, e: map<string, string>)
    ensures RunPlan(steps, p + q, e) ==
      (var a := RunPlan(steps, p, e); if a.result == Finished(true) then RunPlan(steps, q, a.entries) else a)
    decreases |p|
  {
    if |p| == 0 {
      assert p + q == q;
    } else {
      assert (p + q)[0] == p[0] && (p + q)[1..] == p[1..] + q;
      if VersionText(p[0]) in steps {
        var o := RunStep(steps[VersionText(p[0])], e);
        if o.ok {
          var stamped := o.entries["v" := VersionText(p[0])];
          RunPlanAppend(steps, p[1..], q, stamped);
          assert RunPlan(steps, p + q, e) == RunPlan(steps, p[1..] + q, stamped);
          assert RunPlan(steps, p, e) == RunPlan(steps, p[1..], stamped);
        }
      }
    }
  }

  /** After a run of a non-empty plan that succeeded, `v` holds the last
      step's version. */
  lemma {:induction false} RunPlanStampsLast(steps: map<string, seq<Migration>>, plan: seq<SemVer>, e: map<string, string>)
    requires |plan| > 0 && RunPlan(steps, plan, e).result == Finished(true)
    ensures Lookup(RunPlan(steps, plan, e).entries, "v") == Some(VersionText(plan[|plan| - 1]))
    decreases |plan|
  {
    var o := RunStep(steps[VersionText(plan[0])], e);
    if |plan| > 1 {
      RunPlanStampsLast(steps, plan[1..], o.entries["v" := VersionText(plan[0])]);
    }
  }

  /** After a migration that succeeds the URL is as recent as the parser, so
      migrating it again succeeds and changes nothing. */
  lemma MigrateTwice<S>(parser: UrlParser<S>, entries: map<string, string>, d1: Option<DialogAnswer>, d2: Option<DialogAnswer>)
    requires Migrate(parser, entries, d1).result == Finished(true)
    ensures var after := Migrate(parser, entries, d1).entries;
      Migrate(parser, after, d2) == Attempt(Finished(true), after)
  {
    var urlVersion := ParseVersion(UrlVersionText(entries)).value;
    var current := ParseVersion(parser.currentVersion).value;
    if !AtMost(current, urlVersion) {
      var after := Migrate(parser, entries, d1).entries;
      assert UrlVersionText(after) == parser.currentVersion;
    }
  }

  // -------------------------------------------------------------------
  // Reading and writing a URL

  /** The readers in list order, on the same parameters. */
  function DeconstructAll<S>(readers: seq<(S, map<string, string>) -> S>, s: S, e: map<string, string>): S
    decreases |readers|
  {
    if |readers| == 0 then s
    else readers[|readers| - 1](DeconstructAll(readers[..|readers| - 1], s, e), e)
  }

  /** The writers in list order, each on what the previous ones wrote. */
  function ConstructAll<S>(writers: seq<(S, map<string, string>) -> map<string, string>>, s: S, e: map<string, string>): map<string, string>
    decreases |writers|
  {
    if |writers| == 0 then e
    else writers[|writers| - 1](s, ConstructAll(writers[..|writers| - 1], s, e))
  }

  /** `constructUrl(urlParser, params)`: `v` first, then the writers. */
  function ConstructedUrl<S>(parser: UrlParser<S>, s: S, e: map<string, string>): map<string, string> {
    ConstructAll(parser.urlConstructors, s, e["v" := parser.currentVersion])
  }

  lemma {:induction false} DeconstructAllAppend<S>(a: seq<(S, map<string, string>) -> S>, b: seq<(S, map<string, string>) -> S>, s: S, e: map<string, string>)
    ensures DeconstructAll(a + b, s, e) == DeconstructAll(b, DeconstructAll(a, s, e), e)
    decreases |b|
  {
    if |b| == 0 {
      assert a + b == a;
    } else {
      assert (a + b)[..|a + b| - 1] == a + b[..|b| - 1];
      DeconstructAllAppend(a, b[..|b| - 1], s, e);
    }
  }

  /** A writer that neither adds, removes nor changes `v`. */
  ghost predicate LeavesVersion<S(!new)>(w: (S, map<string, string>) -> map<string, string>) {
    forall s, e :: Lookup(w(s, e), "v") == Lookup(e, "v")
  }

  lemma {:induction false} ConstructAllLeavesVersion<S(!new)>(writers: seq<(S, map<string, string>) -> map<string, string>>, s: S, e: map<string, string>)
    requires forall i :: 0 <= i < |writers| ==> LeavesVersion(writers[i])
    ensures Lookup(ConstructAll(writers, s, e), "v") == Lookup(e, "v")
    decreases |writers|
  {
    if |writers| > 0 {
      ConstructAllLeavesVersion(writers[..|writers| - 1], s, e);
      assert LeavesVersion(writers[|writers| - 1]);
    }
  }

  /** A URL written by `constructUrl` needs no migration, as long as the
      writers leave `v` alone. */
  lemma ConstructedUrlIsCurrent<S(!new)>(parser: UrlParser<S>, s: S, e: map<string, string>, dialog: Option<DialogAnswer>)
    requires ParseVersion(parser.currentVersion).Some?
    requires forall i :: 0 <= i < |parser.urlConstructors| ==> LeavesVersion(parser.urlConstructors[i])
    ensures var url := ConstructedUrl(parser, s, e);
      Migrate(parser, url, dialog) == Attempt(Finished(true), url)
  {
    ConstructAllLeavesVersion(parser.urlConstructors, s, e["v" := parser.currentVersion]);
  }

  // -------------------------------------------------------------------
  // The functions themselves

  /** The inner loop: one step's functions on the parameters. */
  method ApplyStep(fns: seq<Migration>, params: UrlSearchParams) returns (ok: bool)
    modifies params
    ensures MigrationOutcome(ok, params.entries) == RunStep(fns, old(params.entries))
  {
    ghost var e0 := params.entries;
    var j := 0;
    while j < |fns|
      invariant 0 <= j <= |fns|
      invariant RunStep(fns, e0) == RunStep(fns[j..], params.entries)
    {
      assert fns[j..][0] == fns[j] && fns[j..][1..] == fns[j + 1..];
      var o := fns[j](params.entries);
      params.entries := o.entries;
      if !o.ok {
        return false;
      }
      j := j + 1;
    }
    return true;
  }

  /** The outer loop: the planned steps, each looked up under its
      version's text and stamped into `v` once done. */
  method ApplyPlan(steps: map<string, seq<Migration>>, plan: seq<SemVer>, params: UrlSearchParams)
    returns (result: MigrationResult)
    modifies params
    ensures Attempt(result, params.entries) == RunPlan(steps, plan, old(params.entries))
  {
    ghost var e0 := params.entries;
    var i := 0;
    while i < |plan|
      invariant 0 <= i <= |plan|
      invariant RunPlan(steps, plan, e0) == RunPlan(steps, plan[i..], params.entries)
    {
      var version := plan[i];
      assert plan[i..][0] == version && plan[i..][1..] == plan[i + 1..];
      var text := VersionText(version);
      if text !in steps {
        return Threw;
      }
      var ok := ApplyStep(steps[text], params);
      if !ok {
        return Finished(false);
      }
      params.Set("v", text);
      i := i + 1;
    }
    return Finished(true);
  }

  /** `tryUrlMigration` with parameters given. Without them the source
      reads `new URL(window.location.origin).searchParams`, which never
      has a query: the URL then always reads as version 1.0.0 and what the
      migration writes is dropped. */
  method TryUrlMigration<S>(parser: UrlParser<S>, params: UrlSearchParams, dialog: Option<DialogAnswer>)
    returns (result: MigrationResult)
    modifies params
    ensures Attempt(result, params.entries) == Migrate(parser, old(params.entries), dialog)
  {
    var text := params.Get("v");
    var urlText := if text.Some? then text.value else "1.0.0";
    var urlVersion := ParseVersion(urlText);
    if urlVersion.None? {
      return Threw;
    }
    var parserVersion := ParseVersion(parser.currentVersion);
    if parserVersion.None? {
      return Threw;
    }
    if AtMost(parserVersion.value, urlVersion.value) {
      return Finished(true);
    }
    if dialog == Some(Denied) {
      return Finished(false);
    }
    var sorted := Plan(parser.migrationSteps, urlVersion.value, parserVersion.value);
    if sorted.None? {
      return Threw;
    }
    result := ApplyPlan(parser.migrationSteps.values, sorted.value, params);
    if result == Finished(true) {
      params.Set("v", parser.currentVersion);
    }
  }

  /** `deconstructUrl(urlParser, params)` */
  method DeconstructUrl<S>(parser: UrlParser<S>, s: S, params: UrlSearchParams) returns (r: S)
    ensures r == DeconstructAll(parser.urlDeconstructors, s, params.entries)
  {
    var readers := parser.urlDeconstructors;
    r := s;
    for i := 0 to |readers|
      invariant r == DeconstructAll(readers[..i], s, params.entries)
    {
      assert readers[..i + 1][..i] == readers[..i];
      r := readers[i](r, params.entries);
    }
    assert readers[..|readers|] == readers;
  }

  /** `constructUrl(urlParser, params)` with parameters given; without them
      the source writes into the always empty parameters of the page's
      origin and the result is dropped. */
  method ConstructUrl<S>(parser: UrlParser<S>, s: S, params: UrlSearchParams)
    modifies params
    ensures params.entries == ConstructedUrl(parser, s, old(params.entries))
  {
    params.Set("v", parser.currentVersion);
    ghost var e0 := params.entries;
    var writers := parser.urlConstructors;
    for i := 0 to |writers|
      invariant params.entries == ConstructAll(writers[..i], s, e0)
    {
      assert writers[..i + 1][..i] == writers[..i];
      params.entries := writers[i](s, params.entries);
    }
    assert writers[..|writers|] == writers;
  }
}

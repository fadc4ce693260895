/** `Extract` as evidently intended: after a walk without error, the first
    error a cleanup reports is returned. As written (extract.go:122-135)
    the recorded cleanup error is only replaced when one is already
    recorded, so it stays nil and every cleanup error is lost; `Run` models
    that. */
module Findings {
  import opened Common
  import opened FsModel
  import opened Squash
  import opened ExtractSpec
  import opened ExtractFacts

  /** The first error the cleanups report when run in order from `s`. */
  function FirstCleanupError(env: Env, s: Fs, ops: OpsKind, cs: seq<Cleanup>): Option<Error>
    decreases |cs|
  {
    if cs == [] then None
    else
      var r := RunCleanup(env, s, ops, cs[0]);
      if r.err.Some? then r.err else FirstCleanupError(env, r.fs, ops, cs[1..])
  }

  /** Cleanup `i` fails when run after the ones before it. */
  predicate CleanupFails(env: Env, s: Fs, ops: OpsKind, cs: seq<Cleanup>, i: int)
    requires 0 <= i < |cs|
  {
    RunCleanup(env, Drain(env, s, ops, cs[..i]), ops, cs[i]).err.Some?
  }

  /** `FirstCleanupError` finds the first failing cleanup: it is nil exactly
      when no cleanup fails, and otherwise it is the error of a failing
      cleanup that only successful ones precede. */
  lemma {:induction false} FirstCleanupErrorFound(env: Env, s: Fs, ops: OpsKind, cs: seq<Cleanup>)
    ensures FirstCleanupError(env, s, ops, cs).None? <==>
              forall i :: 0 <= i < |cs| ==> !CleanupFails(env, s, ops, cs, i)
    ensures FirstCleanupError(env, s, ops, cs).Some? ==>
              exists i :: 0 <= i < |cs| && CleanupFails(env, s, ops, cs, i)
                && FirstCleanupError(env, s, ops, cs) == RunCleanup(env, Drain(env, s, ops, cs[..i]), ops, cs[i]).err
                && forall j :: 0 <= j < i ==> !CleanupFails(env, s, ops, cs, j)
    decreases |cs|
  {
    if cs != [] {
      var r := RunCleanup(env, s, ops, cs[0]);
      var rest := cs[1..];
      FirstCleanupErrorFound(env, r.fs, ops, rest);
      assert cs[..0] == [];
      assert Drain(env, s, ops, cs[..0]) == s;
      forall i | 0 < i < |cs|
        ensures Drain(env, s, ops, cs[..i]) == Drain(env, r.fs, ops, rest[..i - 1])
        ensures CleanupFails(env, s, ops, cs, i) == CleanupFails(env, r.fs, ops, rest, i - 1)
      {
        assert cs[..i][0] == cs[0];
        assert cs[..i][1..] == rest[..i - 1];
      }
      if r.err.None? {
        assert !CleanupFails(env, s, ops, cs, 0);
        if FirstCleanupError(env, r.fs, ops, rest).Some? {
          var k :| 0 <= k < |rest| && CleanupFails(env, r.fs, ops, rest, k)
            && FirstCleanupError(env, r.fs, ops, rest) == RunCleanup(env, Drain(env, r.fs, ops, rest[..k]), ops, rest[k]).err
            && forall j :: 0 <= j < k ==> !CleanupFails(env, r.fs, ops, rest, j);
          assert CleanupFails(env, s, ops, cs, k + 1);
          forall j | 0 <= j < k + 1 ensures !CleanupFails(env, s, ops, cs, j) {
            if j > 0 {
              assert !CleanupFails(env, r.fs, ops, rest, j - 1);
            }
          }
        } else {
          forall i | 0 <= i < |cs| ensures !CleanupFails(env, s, ops, cs, i) {
            if i > 0 {
              assert !CleanupFails(env, r.fs, ops, rest, i - 1);
            }
          }
        }
      } else {
        assert CleanupFails(env, s, ops, cs, 0);
      }
    }
  }

  /** `Extract()` with the cleanup error recorded as intended. */
  function RunIntended(opts: Options, env: Env, a: Archive, preset: Option<OpsKind>, s: Fs, cs: seq<Cleanup>): RunResult {
    match SelectOps(preset, env)
    case Err(e) => RunResult(preset, s, cs, Some(e))
    case Ok(ops) =>
      var w := Walk(a, opts.root, ExtractVisitor(opts, env, ops), ExtState(s, cs));
      RunResult(Some(ops), Drain(env, w.state.fs, ops, w.state.cleanups), w.state.cleanups,
                if w.err.Some? then w.err else FirstCleanupError(env, w.state.fs, ops, w.state.cleanups))
  }

  /** The intended `Extract` does everything the written one does and
      differs only in its result: after a walk without error, it is nil
      exactly when every cleanup succeeds. */
  lemma RunIntendedReportsCleanups(opts: Options, env: Env, a: Archive, preset: Option<OpsKind>, s: Fs, cs: seq<Cleanup>)
    ensures var r := RunIntended(opts, env, a, preset, s, cs);
      var q := Run(opts, env, a, preset, s, cs);
      && r.ops == q.ops && r.fs == q.fs && r.cleanups == q.cleanups
      && (q.err.Some? ==> r.err == q.err)
    ensures SelectOps(preset, env).Ok? ==>
      var ops := SelectOps(preset, env).value;
      var w := Walk(a, opts.root, ExtractVisitor(opts, env, ops), ExtState(s, cs));
      w.err.None? ==>
        (RunIntended(opts, env, a, preset, s, cs).err.None? <==>
           forall i :: 0 <= i < |w.state.cleanups| ==> !CleanupFails(env, w.state.fs, ops, w.state.cleanups, i))
  {
    if SelectOps(preset, env).Ok? {
      var ops := SelectOps(preset, env).value;
      var w := Walk(a, opts.root, ExtractVisitor(opts, env, ops), ExtState(s, cs));
      FirstCleanupErrorFound(env, w.state.fs, ops, w.state.cleanups);
    }
  }

  /** As written, a cleanup that fails after a walk without error goes
      unreported, where the intended `Extract` reports it. */
  lemma RunDropsCleanupError(opts: Options, env: Env, a: Archive, preset: Option<OpsKind>, s: Fs, cs: seq<Cleanup>, i: int)
    requires SelectOps(preset, env).Ok?
    requires var w := Walk(a, opts.root, ExtractVisitor(opts, env, SelectOps(preset, env).value), ExtState(s, cs));
      && w.err.None? && 0 <= i < |w.state.cleanups|
      && CleanupFails(env, w.state.fs, SelectOps(preset, env).value, w.state.cleanups, i)
    ensures Run(opts, env, a, preset, s, cs).err.None?
    ensures RunIntended(opts, env, a, preset, s, cs).err.Some?
  {
    RunIntendedReportsCleanups(opts, env, a, preset, s, cs);
  }
}

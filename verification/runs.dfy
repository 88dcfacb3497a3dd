/**
 Sequences of calls on one chain, and on a chain together with a chain
 detached from it: the first failure is latched and every later call is a
 no-op, and two chains share nothing but the (coherent) procedure cache.
 */
module Runs {
  import opened Wrappers
  import opened Words
  import opened Coercion
  import opened Errors
  import opened Resolution
  import opened Chain

  /** The words the calls returned, in order, and the chain afterwards. */
  datatype Trace = Trace(results: seq<Word>, t: Try)

  /** Issues `ops` on `t` in order; a panic ends the sequence. */
  function Run(t: Try, env: Env, cache: Cache, ops: seq<Op>): (o: Outcome<Trace>)
    ensures o.Done? ==> |o.value.results| == |ops|
    decreases |ops|
  {
    if |ops| == 0 then Done(Trace([], t), cache)
    else
      match Apply(t, env, cache, ops[0])
      case Aborted(p, c) => Aborted(p, c)
      case Done(Step(r, t1), c1) =>
        match Run(t1, env, c1, ops[1..])
        case Aborted(p, c) => Aborted(p, c)
        case Done(Trace(rs, t2), c2) => Done(Trace([r] + rs, t2), c2)
  }

  function Zeros(n: nat): (z: seq<Word>)
  {
    if n == 0 then [] else [0] + Zeros(n - 1)
  }

  /** Continues a run that ended in `o` with `ops`. */
  function Then(o: Outcome<Trace>, env: Env, ops: seq<Op>): Outcome<Trace>
  {
    match o
    case Aborted(p, c) => Aborted(p, c)
    case Done(Trace(rs, t), c) =>
      match Run(t, env, c, ops)
      case Aborted(p, c') => Aborted(p, c')
      case Done(Trace(rs', t'), c') => Done(Trace(rs + rs', t'), c')
  }

  /**
   On a failed chain every call of every sequence returns 0, the error and
   the cache stay as they are, and nothing is resolved, converted or
   invoked: the outcome does not depend on the libraries or the oracle.
   */
  lemma {:induction false} RunFailedIsInert(t: Try, env: Env, cache: Cache, ops: seq<Op>)
    requires Failed(t)
    ensures Run(t, env, cache, ops) == Done(Trace(Zeros(|ops|), t), cache)
    decreases |ops|
  {
    if |ops| > 0 {
      assert Apply(t, env, cache, ops[0]) == Done(Step(0, t), cache);
      RunFailedIsInert(t, env, cache, ops[1..]);
    }
  }

  /** Running `ops1 + ops2` is running `ops1`, then `ops2` from where it ended. */
  lemma {:induction false} RunAppend(t: Try, env: Env, cache: Cache, ops1: seq<Op>, ops2: seq<Op>)
    ensures Run(t, env, cache, ops1 + ops2) == Then(Run(t, env, cache, ops1), env, ops2)
    decreases |ops1|
  {
    if |ops1| == 0 {
      assert ops1 + ops2 == ops2;
      match Run(t, env, cache, ops2)
      case Aborted(p, c) =>
      case Done(Trace(rs, t'), c') =>
        assert [] + rs == rs;
    } else {
      assert (ops1 + ops2)[0] == ops1[0];
      assert (ops1 + ops2)[1..] == ops1[1..] + ops2;
      match Apply(t, env, cache, ops1[0])
      case Aborted(p, c) =>
      case Done(Step(r, t1), c1) =>
        RunAppend(t1, env, c1, ops1[1..], ops2);
        match Run(t1, env, c1, ops1[1..])
        case Aborted(p, c) =>
        case Done(Trace(rs, t2), c2) =>
          match Run(t2, env, c2, ops2)
          case Aborted(p, c) =>
          case Done(Trace(rs', t3), c3) =>
            assert [r] + (rs + rs') == ([r] + rs) + rs';
    }
  }

  /**
   First-failure latching: once a prefix of the sequence has failed the
   chain, the rest of the sequence returns zeros and leaves the latched
   error and the cache exactly as the prefix left them.
   */
  lemma LatchAfterFailure(t: Try, env: Env, cache: Cache, ops1: seq<Op>, ops2: seq<Op>)
    requires Run(t, env, cache, ops1).Done? && Failed(Run(t, env, cache, ops1).value.t)
    ensures var pre := Run(t, env, cache, ops1);
      Run(t, env, cache, ops1 + ops2) == Done(Trace(pre.value.results + Zeros(|ops2|), pre.value.t), pre.cache)
  {
    RunAppend(t, env, cache, ops1, ops2);
    var pre := Run(t, env, cache, ops1);
    RunFailedIsInert(pre.value.t, env, pre.cache, ops2);
  }

  /** A run that returns is its first call followed by the run of the rest. */
  lemma RunUnfold(t: Try, env: Env, cache: Cache, ops: seq<Op>)
    requires |ops| > 0 && Run(t, env, cache, ops).Done?
    ensures Apply(t, env, cache, ops[0]).Done?
    ensures var o1 := Apply(t, env, cache, ops[0]);
      && Run(o1.value.t, env, o1.cache, ops[1..]).Done?
      && Run(o1.value.t, env, o1.cache, ops[1..]).value.t == Run(t, env, cache, ops).value.t
      && Run(o1.value.t, env, o1.cache, ops[1..]).cache == Run(t, env, cache, ops).cache
  {
  }

  /** A returning prefix of length `k + 1` is the first call, then `k` more. */
  lemma RunPrefixCons(t: Try, env: Env, cache: Cache, ops: seq<Op>, k: nat)
    requires k < |ops| - 1
    requires Apply(t, env, cache, ops[0]).Done?
    requires var o1 := Apply(t, env, cache, ops[0]);
      Run(o1.value.t, env, o1.cache, ops[1..][..k]).Done?
    ensures var o1 := Apply(t, env, cache, ops[0]);
      var rest := Run(o1.value.t, env, o1.cache, ops[1..][..k]);
      Run(t, env, cache, ops[..k + 1]) == Done(Trace([o1.value.r] + rest.value.results, rest.value.t), rest.cache)
  {
    var pre := ops[..k + 1];
    assert pre[0] == ops[0];
    assert pre[1..] == ops[1..][..k];
  }

  /**
   A sequence that takes a live chain to a failed one has a first failing
   call `k`: the calls before it leave the chain live, and the error the
   chain ends with is the one call `k` latched, naming its procedure.
   */
  lemma {:induction false} FirstFailure(t: Try, env: Env, cache: Cache, ops: seq<Op>) returns (k: nat)
    requires !Failed(t)
    requires Run(t, env, cache, ops).Done? && Failed(Run(t, env, cache, ops).value.t)
    ensures k < |ops|
    ensures Run(t, env, cache, ops[..k]).Done? && !Failed(Run(t, env, cache, ops[..k]).value.t)
    ensures var pre := Run(t, env, cache, ops[..k]);
      && Apply(pre.value.t, env, pre.cache, ops[k]).Done?
      && Apply(pre.value.t, env, pre.cache, ops[k]).value.t == Run(t, env, cache, ops).value.t
    ensures Run(t, env, cache, ops).value.t.err.value.msg == ops[k].name
    decreases |ops|
  {
    assert |ops| > 0;
    assert ops[..0] == [];
    RunUnfold(t, env, cache, ops);
    var o1 := Apply(t, env, cache, ops[0]);
    var t1, c1 := o1.value.t, o1.cache;
    if Failed(t1) {
      RunFailedIsInert(t1, env, c1, ops[1..]);
      ApplyLatchesName(t, env, cache, ops[0]);
      k := 0;
    } else {
      var k' := FirstFailure(t1, env, c1, ops[1..]);
      k := k' + 1;
      RunPrefixCons(t, env, cache, ops, k');
      assert ops[k] == ops[1..][k'];
    }
  }

  // ---------------------------------------------------------------------
  // Two chains and one cache.

  /** Under a coherent cache `F`'s outcome does not depend on what is cached. */
  lemma FCacheIrrelevant(t: Try, env: Env, c1: Cache, c2: Cache, name: string, args: seq<Arg>)
    requires Coherent(env.dlls, c1) && Coherent(env.dlls, c2)
    ensures F(t, env, c1, name, args).Done? <==> F(t, env, c2, name, args).Done?
    ensures F(t, env, c1, name, args).Done? ==> F(t, env, c1, name, args).value == F(t, env, c2, name, args).value
    ensures Coherent(env.dlls, F(t, env, c1, name, args).cache)
  {
    ResolveCacheIrrelevant(env.dlls, c1, c2, name);
    ResolveCoherent(env.dlls, c1, name);
  }

  lemma ApplyCacheIrrelevant(t: Try, env: Env, c1: Cache, c2: Cache, op: Op)
    requires Coherent(env.dlls, c1) && Coherent(env.dlls, c2)
    ensures Apply(t, env, c1, op).Done? <==> Apply(t, env, c2, op).Done?
    ensures Apply(t, env, c1, op).Done? ==> Apply(t, env, c1, op).value == Apply(t, env, c2, op).value
    ensures Coherent(env.dlls, Apply(t, env, c1, op).cache)
  {
    FCacheIrrelevant(t, env, c1, c2, op.name, op.args);
    match op
    case Nonzero(name, args) =>
      assert Apply(t, env, c1, op) == N(t, env, c1, name, args);
    case Zero(name, args) =>
      assert Apply(t, env, c1, op) == Z(t, env, c1, name, args);
    case Any(name, args) =>
      assert Apply(t, env, c1, op) == A(t, env, c1, name, args);
    case Custom(isok, name, args) =>
      assert Apply(t, env, c1, op) == X(t, env, c1, isok, name, args);
  }

  lemma CallCacheIrrelevant(tr: Tryer, env: Env, c1: Cache, c2: Cache, op: Op)
    requires Coherent(env.dlls, c1) && Coherent(env.dlls, c2)
    ensures Call(tr, env, c1, op).Done? <==> Call(tr, env, c2, op).Done?
    ensures Call(tr, env, c1, op).Done? ==> Call(tr, env, c1, op).value == Call(tr, env, c2, op).value
    ensures Coherent(env.dlls, Call(tr, env, c1, op).cache)
  {
    if tr.Chained? {
      ApplyCacheIrrelevant(tr.t, env, c1, c2, op);
    }
  }

  /** Issues `ops` on a `Tryer` (a detached chain or `nop`) in order. */
  function RunTryer(tr: Tryer, env: Env, cache: Cache, ops: seq<Op>): Outcome<Tryer>
    decreases |ops|
  {
    if |ops| == 0 then Done(tr, cache)
    else
      match Call(tr, env, cache, ops[0])
      case Aborted(p, c) => Aborted(p, c)
      case Done((_, tr1), c1) => RunTryer(tr1, env, c1, ops[1..])
  }

  /** A call on the main chain or on the chain detached from it. */
  datatype Tagged = OnMain(op: Op) | OnSide(op: Op)

  datatype Pair = Pair(main: Try, side: Tryer)

  /** Interleaves calls on two chains that share the procedure cache. */
  function RunPair(main: Try, side: Tryer, env: Env, cache: Cache, ops: seq<Tagged>): Outcome<Pair>
    decreases |ops|
  {
    if |ops| == 0 then Done(Pair(main, side), cache)
    else
      match ops[0]
      case OnMain(op) =>
        (match Apply(main, env, cache, op)
         case Aborted(p, c) => Aborted(p, c)
         case Done(Step(_, main1), c1) => RunPair(main1, side, env, c1, ops[1..]))
      case OnSide(op) =>
        (match Call(side, env, cache, op)
         case Aborted(p, c) => Aborted(p, c)
         case Done((_, side1), c1) => RunPair(main, side1, env, c1, ops[1..]))
  }

  function MainOps(ops: seq<Tagged>): seq<Op>
  {
    if |ops| == 0 then []
    else if ops[0].OnMain? then [ops[0].op] + MainOps(ops[1..])
    else MainOps(ops[1..])
  }

  function SideOps(ops: seq<Tagged>): seq<Op>
  {
    if |ops| == 0 then []
    else if ops[0].OnSide? then [ops[0].op] + SideOps(ops[1..])
    else SideOps(ops[1..])
  }

  /**
   Chain independence: however the calls on the two chains interleave,
   each chain ends exactly as it would have had the other never been used.
   Failures on one never reach the other; the shared cache, kept coherent,
   only saves scans.
   */
  lemma {:induction false} PairIndependent(main: Try, side: Tryer, env: Env, cache: Cache, cm: Cache, cs: Cache, ops: seq<Tagged>)
    requires Coherent(env.dlls, cache) && Coherent(env.dlls, cm) && Coherent(env.dlls, cs)
    requires RunPair(main, side, env, cache, ops).Done?
    ensures Run(main, env, cm, MainOps(ops)).Done?
    ensures Run(main, env, cm, MainOps(ops)).value.t == RunPair(main, side, env, cache, ops).value.main
    ensures RunTryer(side, env, cs, SideOps(ops)) == Done(RunPair(main, side, env, cache, ops).value.side, RunTryer(side, env, cs, SideOps(ops)).cache)
    decreases |ops|
  {
    if |ops| > 0 {
      match ops[0]
      case OnMain(op) =>
        ApplyCacheIrrelevant(main, env, cache, cm, op);
        ApplyCacheIrrelevant(main, env, cm, cache, op);
        var o := Apply(main, env, cache, op);
        var om := Apply(main, env, cm, op);
        PairIndependent(o.value.t, side, env, o.cache, om.cache, cs, ops[1..]);
        assert MainOps(ops)[0] == op && MainOps(ops)[1..] == MainOps(ops[1..]);
      case OnSide(op) =>
        CallCacheIrrelevant(side, env, cache, cs, op);
        CallCacheIrrelevant(side, env, cs, cache, op);
        var o := Call(side, env, cache, op);
        var os := Call(side, env, cs, op);
        PairIndependent(main, o.value.1, env, o.cache, cm, os.cache, ops[1..]);
        assert SideOps(ops)[0] == op && SideOps(ops)[1..] == SideOps(ops[1..]);
    }
  }

  // ---------------------------------------------------------------------
  // Scenarios.

  /**
   A fresh chain calls `Alpha` under the nonzero policy and gets 0: the
   chain now holds "Alpha: <OS error text>". A following `Z("Beta")` on it
   returns 0 without resolving or invoking anything, so it cannot panic
   even if no library exports `Beta` and its arguments cannot be converted.
   */
  lemma AlphaThenBeta(env: Env, cache: Cache, env2: Env, args: seq<Arg>)
    requires Resolve(env.dlls, cache, "Alpha").Some?
    requires env.invoke(Resolve(env.dlls, cache, "Alpha").value.proc, []).r == 0
    ensures var o := N(NewTry, env, cache, "Alpha", []);
      && o.Done? && o.value.r == 0 && Failed(o.value.t)
      && o.value.t.err.value.original.Some?
      && ErrorText(o.value.t.err.value) == "Alpha: " + env.invoke(Resolve(env.dlls, cache, "Alpha").value.proc, []).lastErr.text
      && Z(o.value.t, env2, o.cache, "Beta", args) == Done(Step(0, o.value.t), o.cache)
  {
    var o := N(NewTry, env, cache, "Alpha", []);
    assert CoerceAll([]) == Words([]);
    LatchedErrorText(NewTry, env, cache, (r: Word) => r != 0, "Alpha", []);
    NIsX(NewTry, env, cache, "Alpha", []);
  }

  /**
   A call detached from a live chain runs whatever that chain has done
   since: `A("Close", h)` invokes the procedure `Close` resolves to with the
   single word `h` and returns what that call returned.
   */
  lemma DetachedCloseRuns(t: Try, env: Env, cache: Cache, h: Word)
    requires !Failed(t)
    requires Coherent(env.dlls, cache)
    requires Scan(env.dlls, "Close").Some?
    ensures var closed := Call(Detach(t), env, cache, Any("Close", [Unsigned(Uintptr, h)]));
      && closed.Done?
      && closed.value.0 == env.invoke(Scan(env.dlls, "Close").value, [h]).r
  {
    ResolveCoherent(env.dlls, cache, "Close");
    var args := [Unsigned(Uintptr, h)];
    assert CoerceAll(args).words == [h] by {
      assert Coerce(args[0]) == Some(h);
    }
  }

  /**
   A chain opens a handle `h`, detaches, and then fails. The detached
   `A("Close", h)` still runs and invokes `Close` with `h`.
   */
  lemma CloseAfterLaterFailure(env: Env, cache: Cache, open: Op, failing: Op, h: Word)
    requires Coherent(env.dlls, cache)
    requires Scan(env.dlls, "Close").Some?
    requires Apply(NewTry, env, cache, open).Done? && !Failed(Apply(NewTry, env, cache, open).value.t)
    requires var o1 := Apply(NewTry, env, cache, open);
      Apply(o1.value.t, env, o1.cache, failing).Done? && Failed(Apply(o1.value.t, env, o1.cache, failing).value.t)
    ensures var o1 := Apply(NewTry, env, cache, open);
      var o2 := Apply(o1.value.t, env, o1.cache, failing);
      var closed := Call(Detach(o1.value.t), env, o2.cache, Any("Close", [Unsigned(Uintptr, h)]));
      && closed.Done?
      && closed.value.0 == env.invoke(Scan(env.dlls, "Close").value, [h]).r
  {
    var o1 := Apply(NewTry, env, cache, open);
    ApplyCacheIrrelevant(NewTry, env, cache, cache, open);
    var o2 := Apply(o1.value.t, env, o1.cache, failing);
    ApplyCacheIrrelevant(o1.value.t, env, o1.cache, o1.cache, failing);
    DetachedCloseRuns(o1.value.t, env, o2.cache, h);
  }
}

/**
 The `Try` chain: `F` resolves, converts and invokes; `N`, `Z`, `A` and `X`
 classify the raw result and latch the first failure with `failf`; `Detach`
 splits off a fresh chain, or the inert `nop` once the chain has failed.

 The native side is a parameter: `Env.dlls` are the loaded libraries and
 `Env.invoke` is `Proc.Call` followed by `GetLastError`. The `procs` cache
 is threaded through every call explicitly.
 */
module Chain {
  import opened Wrappers
  import opened Words
  import opened Coercion
  import opened Errors
  import opened Resolution

  /** A `Try`: its only state is the first error, nil while the chain is live. */
  datatype Try = Try(err: Option<Error>)

  /** The zero `Try` (`var try winq.Try`, `&Try{}`): a live chain. */
  const NewTry: Try := Try(None)

  predicate Failed(t: Try)
  {
    t.err.Some?
  }

  /** What one native call yields: the result word and the OS last error. */
  datatype Native = Native(r: Word, lastErr: OsError)

  datatype Env = Env(dlls: seq<Library>, invoke: (Proc, seq<Word>) -> Native)

  /** The two panics of `F`: an unknown procedure, an unconvertible argument. */
  datatype Panic =
    | ProcNotFound(name: string)
    | UnknownKind(kind: string, index: nat, name: string)

  /**
   A call either returns or panics; either way the cache is passed on as it
   then stands (a panic can be recovered, and the cache is global).
   */
  datatype Outcome<T> = Done(value: T, cache: Cache) | Aborted(panic: Panic, cache: Cache)

  /** The two results of `F`; `lastErr` is nil only on a failed chain. */
  datatype Raw = Raw(r: Word, lastErr: Option<OsError>)

  /**
   `Try.F`. A failed chain returns `(0, nil)` at once, whatever the
   libraries, the oracle, the cache and the arguments. A live chain
   resolves first (and may panic with ProcNotFound), then converts the
   arguments (and may panic at the first bad one), then invokes.
   */
  function F(t: Try, env: Env, cache: Cache, name: string, args: seq<Arg>): (o: Outcome<Raw>)
    ensures Failed(t) ==> o == Done(Raw(0, None), cache)
    ensures o.Aborted? <==> !Failed(t) && (Resolve(env.dlls, cache, name).None? || CoerceAll(args).BadKind?)
    ensures o.Aborted? && Resolve(env.dlls, cache, name).None? ==> o == Aborted(ProcNotFound(name), cache)
    ensures o.Aborted? ==> (o.panic.ProcNotFound? <==> Resolve(env.dlls, cache, name).None?)
    ensures o.Aborted? && o.panic.UnknownKind? ==>
      && Resolve(env.dlls, cache, name).Some?
      && o.cache == Resolve(env.dlls, cache, name).value.cache
      && o.panic.name == name
      && o.panic.index < |args|
      && args[o.panic.index] == Other(o.panic.kind)
      && forall j :: 0 <= j < o.panic.index ==> Convertible(args[j])
    ensures !Failed(t) && o.Done? ==>
      && o.value.lastErr.Some?
      && Resolve(env.dlls, cache, name).Some?
      && CoerceAll(args).Words?
      && |CoerceAll(args).words| == |args|
      && o.cache == Resolve(env.dlls, cache, name).value.cache
      && env.invoke(Resolve(env.dlls, cache, name).value.proc, CoerceAll(args).words) == Native(o.value.r, o.value.lastErr.value)
  {
    if Failed(t) then Done(Raw(0, None), cache)
    else
      match Resolve(env.dlls, cache, name)
      case None => Aborted(ProcNotFound(name), cache)
      case Some(Resolved(p, cache')) =>
        match CoerceAll(args)
        case BadKind(i, k) => Aborted(UnknownKind(k, i, name), cache')
        case Words(ws) =>
          var n := env.invoke(p, ws);
          Done(Raw(n.r, Some(n.lastErr)), cache')
  }

  /** `failf`: records an error only on a live chain; the first one sticks. */
  function Failf(t: Try, orig: Option<OsError>, msg: string): (t': Try)
    ensures Failed(t')
    ensures Failed(t) ==> t' == t
    ensures !Failed(t) ==> t'.err == Some(Error(orig, msg))
  {
    if Failed(t) then t else Try(Some(Error(orig, msg)))
  }

  /** A returned call: the word handed back and the chain afterwards. */
  datatype Step = Step(r: Word, t: Try)

  /** Every latched error carries the OS error, so its text can be rendered. */
  predicate Renderable(t: Try)
  {
    t.err.Some? ==> t.err.value.original.Some?
  }

  /** `Try.N`: a nonzero result is success, zero latches `name` and the OS error. */
  function N(t: Try, env: Env, cache: Cache, name: string, args: seq<Arg>): (o: Outcome<Step>)
    ensures Failed(t) ==> o == Done(Step(0, t), cache)
    ensures o.Done? ==> F(t, env, cache, name, args).Done? && F(t, env, cache, name, args).value.r == o.value.r && F(t, env, cache, name, args).cache == o.cache
    ensures o.Done? && !Failed(t) ==> (Failed(o.value.t) <==> o.value.r == 0)
    ensures o.Done? && !Failed(t) && Failed(o.value.t) ==>
      F(t, env, cache, name, args).Done? && o.value.t.err == Some(Error(F(t, env, cache, name, args).value.lastErr, name))
    ensures o.Done? && Renderable(t) ==> Renderable(o.value.t)
    ensures o.Aborted? <==> F(t, env, cache, name, args).Aborted?
    ensures o.Aborted? ==> o.panic == F(t, env, cache, name, args).panic && o.cache == F(t, env, cache, name, args).cache
  {
    match F(t, env, cache, name, args)
    case Aborted(p, c) => Aborted(p, c)
    case Done(Raw(r, err), c) =>
      Done(Step(r, if r == 0 then Failf(t, err, name) else t), c)
  }

  /** `Try.Z`: a zero result is success, nonzero latches `name` and the OS error. */
  function Z(t: Try, env: Env, cache: Cache, name: string, args: seq<Arg>): (o: Outcome<Step>)
    ensures Failed(t) ==> o == Done(Step(0, t), cache)
    ensures o.Done? ==> F(t, env, cache, name, args).Done? && F(t, env, cache, name, args).value.r == o.value.r && F(t, env, cache, name, args).cache == o.cache
    ensures o.Done? && !Failed(t) ==> (Failed(o.value.t) <==> o.value.r != 0)
    ensures o.Done? && !Failed(t) && Failed(o.value.t) ==>
      F(t, env, cache, name, args).Done? && o.value.t.err == Some(Error(F(t, env, cache, name, args).value.lastErr, name))
    ensures o.Done? && Renderable(t) ==> Renderable(o.value.t)
    ensures o.Aborted? <==> F(t, env, cache, name, args).Aborted?
    ensures o.Aborted? ==> o.panic == F(t, env, cache, name, args).panic && o.cache == F(t, env, cache, name, args).cache
  {
    match F(t, env, cache, name, args)
    case Aborted(p, c) => Aborted(p, c)
    case Done(Raw(r, err), c) =>
      Done(Step(r, if r != 0 then Failf(t, err, name) else t), c)
  }

  /** `Try.A`: every result is success; the chain's error never changes. */
  function A(t: Try, env: Env, cache: Cache, name: string, args: seq<Arg>): (o: Outcome<Step>)
    ensures Failed(t) ==> o == Done(Step(0, t), cache)
    ensures o.Done? ==> F(t, env, cache, name, args).Done? && F(t, env, cache, name, args).value.r == o.value.r && F(t, env, cache, name, args).cache == o.cache
    ensures o.Done? ==> o.value.t == t
    ensures o.Aborted? <==> F(t, env, cache, name, args).Aborted?
    ensures o.Aborted? ==> o.panic == F(t, env, cache, name, args).panic && o.cache == F(t, env, cache, name, args).cache
  {
    match F(t, env, cache, name, args)
    case Aborted(p, c) => Aborted(p, c)
    case Done(Raw(r, _), c) => Done(Step(r, t), c)
  }

  /** `Try.X`: success is whatever `isok` says of the result. */
  function X(t: Try, env: Env, cache: Cache, isok: Word -> bool, name: string, args: seq<Arg>): (o: Outcome<Step>)
    ensures Failed(t) ==> o == Done(Step(0, t), cache)
    ensures o.Done? ==> F(t, env, cache, name, args).Done? && F(t, env, cache, name, args).value.r == o.value.r && F(t, env, cache, name, args).cache == o.cache
    ensures o.Done? && !Failed(t) ==> (Failed(o.value.t) <==> !isok(o.value.r))
    ensures o.Done? && !Failed(t) && Failed(o.value.t) ==>
      F(t, env, cache, name, args).Done? && o.value.t.err == Some(Error(F(t, env, cache, name, args).value.lastErr, name))
    ensures o.Done? && Renderable(t) ==> Renderable(o.value.t)
    ensures o.Aborted? <==> F(t, env, cache, name, args).Aborted?
    ensures o.Aborted? ==> o.panic == F(t, env, cache, name, args).panic && o.cache == F(t, env, cache, name, args).cache
  {
    match F(t, env, cache, name, args)
    case Aborted(p, c) => Aborted(p, c)
    case Done(Raw(r, err), c) =>
      Done(Step(r, if !isok(r) then Failf(t, err, name) else t), c)
  }

  /** `N` is `X` with the predicate "nonzero". */
  lemma NIsX(t: Try, env: Env, cache: Cache, name: string, args: seq<Arg>)
    ensures N(t, env, cache, name, args) == X(t, env, cache, (r: Word) => r != 0, name, args)
  {
  }

  /** `Z` is `X` with the predicate "zero". */
  lemma ZIsX(t: Try, env: Env, cache: Cache, name: string, args: seq<Arg>)
    ensures Z(t, env, cache, name, args) == X(t, env, cache, (r: Word) => r == 0, name, args)
  {
  }

  /** `A` is `X` with the predicate that accepts everything. */
  lemma AIsX(t: Try, env: Env, cache: Cache, name: string, args: seq<Arg>)
    ensures A(t, env, cache, name, args) == X(t, env, cache, (r: Word) => true, name, args)
  {
  }

  /**
   The error a wrapper latches on a live chain renders as the procedure
   name, ": ", and the text of the OS error the call left behind.
   */
  lemma LatchedErrorText(t: Try, env: Env, cache: Cache, isok: Word -> bool, name: string, args: seq<Arg>)
    requires !Failed(t)
    requires X(t, env, cache, isok, name, args).Done?
    requires Failed(X(t, env, cache, isok, name, args).value.t)
    ensures var e := X(t, env, cache, isok, name, args).value.t.err.value;
      && e.original.Some?
      && e.original == F(t, env, cache, name, args).value.lastErr
      && ErrorText(e) == name + ": " + e.original.value.text
  {
  }

  /** One call through any of the four wrappers. */
  datatype Op =
    | Nonzero(name: string, args: seq<Arg>)
    | Zero(name: string, args: seq<Arg>)
    | Any(name: string, args: seq<Arg>)
    | Custom(isok: Word -> bool, name: string, args: seq<Arg>)

  function Apply(t: Try, env: Env, cache: Cache, op: Op): Outcome<Step>
  {
    match op
    case Nonzero(name, args) => N(t, env, cache, name, args)
    case Zero(name, args) => Z(t, env, cache, name, args)
    case Any(name, args) => A(t, env, cache, name, args)
    case Custom(isok, name, args) => X(t, env, cache, isok, name, args)
  }

  /** A call that fails a live chain latches its own procedure name. */
  lemma ApplyLatchesName(t: Try, env: Env, cache: Cache, op: Op)
    requires !Failed(t)
    requires Apply(t, env, cache, op).Done? && Failed(Apply(t, env, cache, op).value.t)
    ensures Apply(t, env, cache, op).value.t.err.value.msg == op.name
  {
    match op
    case Nonzero(name, args) =>
      assert Apply(t, env, cache, op) == N(t, env, cache, name, args);
    case Zero(name, args) =>
      assert Apply(t, env, cache, op) == Z(t, env, cache, name, args);
    case Any(_, _) =>
    case Custom(isok, name, args) =>
      assert Apply(t, env, cache, op) == X(t, env, cache, isok, name, args);
  }

  /** The `Tryer` that `Detach` returns: a `*Try`, or the inert `nop`. */
  datatype Tryer = Chained(t: Try) | Nop

  /**
   `nop.N`, `nop.Z`, `nop.A` and `nop.X`, and the `*Try` methods behind
   the `Tryer` interface.
   */
  function Call(tr: Tryer, env: Env, cache: Cache, op: Op): (o: Outcome<(Word, Tryer)>)
    ensures tr.Nop? ==> o == Done((0, Nop), cache)
    ensures tr.Chained? && Failed(tr.t) ==> o == Done((0, tr), cache)
    ensures o.Done? ==> (o.value.1.Nop? <==> tr.Nop?)
    ensures tr.Chained? ==> (o.Aborted? <==> Apply(tr.t, env, cache, op).Aborted?)
    ensures tr.Chained? && o.Aborted? ==> o == Aborted(Apply(tr.t, env, cache, op).panic, Apply(tr.t, env, cache, op).cache)
    ensures tr.Chained? && o.Done? ==>
      o == Done((Apply(tr.t, env, cache, op).value.r, Chained(Apply(tr.t, env, cache, op).value.t)), Apply(tr.t, env, cache, op).cache)
  {
    match tr
    case Nop => Done((0, Nop), cache)
    case Chained(t) =>
      match Apply(t, env, cache, op)
      case Aborted(p, c) => Aborted(p, c)
      case Done(Step(r, t'), c) => Done((r, Chained(t')), c)
  }

  /** `Try.Detach`. */
  function Detach(t: Try): Tryer
  {
    if Failed(t) then Nop else Chained(NewTry)
  }

  /**
   Detaching from a failed chain yields a chain on which every call returns
   0, touches nothing and never panics, whatever the oracle and libraries.
   */
  lemma DetachFailedIsInert(t: Try, env: Env, cache: Cache, op: Op)
    requires Failed(t)
    ensures Call(Detach(t), env, cache, op) == Done((0, Nop), cache)
  {
  }

  /**
   Detaching from a live chain yields a live chain that behaves exactly as
   a brand-new `Try` does, whatever the original has recorded or will.
   */
  lemma DetachLiveIsFresh(t: Try, env: Env, cache: Cache, op: Op)
    requires !Failed(t)
    ensures Detach(t).Chained? && !Failed(Detach(t).t)
    ensures Call(Detach(t), env, cache, op) == Call(Chained(NewTry), env, cache, op)
  {
  }
}

/**
 Name resolution for `Try.F`: the package-level `procs` cache in front of a
 scan of the ordered `Dlls` list, where each library is asked for the exact
 name and then for the name with the wide-character suffix "W".
 */
module Resolution {
  import opened Wrappers

  /** A resolved `*syscall.Proc`, identified by its entry address. */
  datatype Proc = Proc(address: nat)

  /** A loaded DLL as `FindProc` sees it: its exported procedures by name. */
  datatype Library = Library(name: string, exports: map<string, Proc>)

  /** The `procs` map: procedure name, as the caller spelled it, to procedure. */
  type Cache = map<string, Proc>

  const WIDE_SUFFIX: string := "W"

  /** `DLL.FindProc`: succeeds exactly when the library exports `fullname`. */
  function FindProc(lib: Library, fullname: string): Option<Proc>
  {
    if fullname in lib.exports then Some(lib.exports[fullname]) else None
  }

  /**
   The first element of `xs` that `f` maps to a value, and that value. Both
   loops of the scan are instances: over libraries, and over name variants.
   */
  function FirstSome<T, U>(xs: seq<T>, f: T -> Option<U>): (r: Option<U>)
    ensures r.None? <==> forall i :: 0 <= i < |xs| ==> f(xs[i]).None?
    ensures forall i :: 0 <= i < |xs| && f(xs[i]).Some? && (forall j :: 0 <= j < i ==> f(xs[j]).None?) ==> r == f(xs[i])
  {
    if |xs| == 0 then None
    else if f(xs[0]).Some? then f(xs[0])
    else
      var r := FirstSome(xs[1..], f);
      assert forall i :: 1 <= i < |xs| ==> xs[i] == xs[1..][i - 1];
      r
  }

  /** The spellings tried in each library, in order. */
  function Variants(name: string): seq<string>
  {
    [name, name + WIDE_SUFFIX]
  }

  /** Asks one library for `name`, falling back to `name + "W"`. */
  function LookupIn(lib: Library, name: string): (r: Option<Proc>)
    ensures name in lib.exports ==> r == Some(lib.exports[name])
    ensures name !in lib.exports ==> r == FindProc(lib, name + WIDE_SUFFIX)
  {
    var f := (n: string) => FindProc(lib, n);
    var vs := Variants(name);
    assert f(vs[0]) == FindProc(lib, name) && f(vs[1]) == FindProc(lib, name + WIDE_SUFFIX);
    FirstSome(vs, f)
  }

  /** The scan of `Dlls` in order; the first library that knows the name wins. */
  function Scan(dlls: seq<Library>, name: string): (r: Option<Proc>)
    ensures r.None? <==> forall k :: 0 <= k < |dlls| ==> LookupIn(dlls[k], name).None?
  {
    FirstSome(dlls, (lib: Library) => LookupIn(lib, name))
  }

  /**
   The scan's result is that of the first library that resolves the name,
   whatever the libraries after it export.
   */
  lemma ScanFirstHit(dlls: seq<Library>, name: string, k: nat)
    requires k < |dlls| && LookupIn(dlls[k], name).Some?
    requires forall j :: 0 <= j < k ==> LookupIn(dlls[j], name).None?
    ensures Scan(dlls, name) == LookupIn(dlls[k], name)
  {
    var f := (lib: Library) => LookupIn(lib, name);
    assert f(dlls[k]).Some?;
    assert forall j :: 0 <= j < k ==> f(dlls[j]).None?;
  }

  /**
   A name that only the second library exports, and only under its wide
   spelling, resolves to that export: neither the first library nor the
   unsuffixed spelling can match first.
   */
  lemma WideFallbackInSecondLibrary(dlls: seq<Library>, name: string)
    requires |dlls| >= 2
    requires name !in dlls[0].exports && name + WIDE_SUFFIX !in dlls[0].exports
    requires name !in dlls[1].exports && name + WIDE_SUFFIX in dlls[1].exports
    ensures Scan(dlls, name) == Some(dlls[1].exports[name + WIDE_SUFFIX])
  {
    ScanFirstHit(dlls, name, 1);
  }

  datatype Resolved = Resolved(proc: Proc, cache: Cache)

  /**
   The lookup at the start of `F`: a cache hit returns the stored procedure
   and leaves the cache alone; a miss scans and stores the first hit under
   the name as given. `None` is the "not found" panic, which leaves the
   cache untouched.
   */
  function Resolve(dlls: seq<Library>, cache: Cache, name: string): (r: Option<Resolved>)
    ensures name in cache ==> r == Some(Resolved(cache[name], cache))
    ensures r.None? <==> name !in cache && forall k :: 0 <= k < |dlls| ==> LookupIn(dlls[k], name).None?
    ensures r.Some? ==> r.value.cache == cache[name := r.value.proc]
    ensures r.Some? ==> r.value.cache.Keys == cache.Keys + {name}
  {
    if name in cache then Some(Resolved(cache[name], cache))
    else
      match Scan(dlls, name)
      case None => None
      case Some(p) => Some(Resolved(p, cache[name := p]))
  }

  /** Every cached entry is what a fresh scan would find. */
  ghost predicate Coherent(dlls: seq<Library>, cache: Cache)
  {
    forall n :: n in cache ==> Scan(dlls, n) == Some(cache[n])
  }

  /**
   On a miss, the procedure stored is the first library's first matching
   spelling, and no other cache entry changes.
   */
  lemma ResolveMiss(dlls: seq<Library>, cache: Cache, name: string, k: nat)
    requires name !in cache
    requires k < |dlls| && LookupIn(dlls[k], name).Some?
    requires forall j :: 0 <= j < k ==> LookupIn(dlls[j], name).None?
    ensures Resolve(dlls, cache, name) == Some(Resolved(LookupIn(dlls[k], name).value, cache[name := LookupIn(dlls[k], name).value]))
    ensures forall n :: n in cache ==> n in Resolve(dlls, cache, name).value.cache && Resolve(dlls, cache, name).value.cache[n] == cache[n]
  {
    ScanFirstHit(dlls, name, k);
  }

  /**
   Memoization: resolving a name again, against any libraries, returns the
   same procedure and leaves the cache as the first resolution left it.
   */
  lemma ResolveTwice(dlls: seq<Library>, later: seq<Library>, cache: Cache, name: string)
    requires Resolve(dlls, cache, name).Some?
    ensures Resolve(later, Resolve(dlls, cache, name).value.cache, name) == Resolve(dlls, cache, name)
  {
  }

  /** Resolution keeps the cache coherent and agrees with a fresh scan. */
  lemma ResolveCoherent(dlls: seq<Library>, cache: Cache, name: string)
    requires Coherent(dlls, cache)
    ensures Resolve(dlls, cache, name).Some? <==> Scan(dlls, name).Some?
    ensures Resolve(dlls, cache, name).Some? ==> Resolve(dlls, cache, name).value.proc == Scan(dlls, name).value
    ensures Resolve(dlls, cache, name).Some? ==> Coherent(dlls, Resolve(dlls, cache, name).value.cache)
  {
  }

  /**
   With coherent caches, what is cached cannot change the outcome: two
   chains sharing the cache see the same procedures as if each had its own.
   */
  lemma ResolveCacheIrrelevant(dlls: seq<Library>, c1: Cache, c2: Cache, name: string)
    requires Coherent(dlls, c1) && Coherent(dlls, c2)
    ensures Resolve(dlls, c1, name).Some? <==> Resolve(dlls, c2, name).Some?
    ensures Resolve(dlls, c1, name).Some? ==> Resolve(dlls, c1, name).value.proc == Resolve(dlls, c2, name).value.proc
  {
    ResolveCoherent(dlls, c1, name);
    ResolveCoherent(dlls, c2, name);
  }
}

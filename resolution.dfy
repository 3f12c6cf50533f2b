/** The resolution protocol shared by the analysis factories: walk an ordered
    list of candidate class names, load the first one any plugin provides,
    build it with the factory's four constructor arguments and cast it to the
    factory shape, or record that no candidate is installed. */
module Resolution {
  import opened Wrappers
  import opened Analysis
  import Plugins
  import Service

  /** A candidate name that resolved, and the class it resolved to. */
  datatype Resolved = Resolved(factoryClass: ClassName, cls: JavaClass)

  /** The first candidate, in candidate order, that some plugin provides.
      Each candidate is searched across all plugins before the next one is
      tried. */
  function ResolveFirst(candidates: seq<ClassName>, dir: Plugins.Directory): (r: Option<Resolved>)
    ensures r.None? <==> forall k :: 0 <= k < |candidates| ==> Plugins.LoadClass(dir, candidates[k]).None?
    ensures r.Some? ==> r.value.factoryClass in candidates
    ensures r.Some? ==> Plugins.LoadClass(dir, r.value.factoryClass) == Some(r.value.cls)
  {
    if candidates == [] then None
    else match Plugins.LoadClass(dir, candidates[0])
      case Some(cls) => Some(Resolved(candidates[0], cls))
      case None =>
        var r := ResolveFirst(candidates[1..], dir);
        assert forall k :: 1 <= k < |candidates| ==> candidates[k] == candidates[1..][k - 1];
        r
  }

  /** The first candidate that resolves is the one chosen. */
  lemma {:induction false} ResolveFirstPicksFirstFound(candidates: seq<ClassName>, dir: Plugins.Directory, k: nat)
    requires k < |candidates| && Plugins.LoadClass(dir, candidates[k]).Some?
    requires forall j :: 0 <= j < k ==> Plugins.LoadClass(dir, candidates[j]).None?
    ensures ResolveFirst(candidates, dir) == Some(Resolved(candidates[k], Plugins.LoadClass(dir, candidates[k]).value))
  {
    if k > 0 {
      forall j | 0 <= j < k - 1 ensures Plugins.LoadClass(dir, candidates[1..][j]).None? {
        assert candidates[1..][j] == candidates[j + 1];
      }
      ResolveFirstPicksFirstFound(candidates[1..], dir, k - 1);
    }
  }

  /** Candidate order dominates plugin order: once candidate `i` is provided
      by any plugin `p`, wherever `p` stands in load order, the resolved
      candidate is `candidates[i]` or one before it, never a later one, even
      when a later candidate lives in an earlier plugin. */
  lemma CandidateOrderDominates(candidates: seq<ClassName>, dir: Plugins.Directory, i: nat, p: nat)
    requires i < |candidates| && p < |dir| && candidates[i] in dir[p].loader
    ensures ResolveFirst(candidates, dir).Some?
    ensures ResolveFirst(candidates, dir).value.factoryClass in candidates[..i + 1]
  {
    var k :| 0 <= k <= i && Plugins.LoadClass(dir, candidates[k]).Some?
      && forall j :: 0 <= j < k ==> Plugins.LoadClass(dir, candidates[j]).None?
      by { FirstResolvableExists(candidates, dir, i); }
    ResolveFirstPicksFirstFound(candidates, dir, k);
    assert candidates[..i + 1][k] == candidates[k];
  }

  /** Some candidate at or before `i` is the first that resolves. */
  lemma {:induction false} FirstResolvableExists(candidates: seq<ClassName>, dir: Plugins.Directory, i: nat)
    requires i < |candidates| && Plugins.LoadClass(dir, candidates[i]).Some?
    ensures exists k :: (0 <= k <= i && Plugins.LoadClass(dir, candidates[k]).Some?
      && forall j :: 0 <= j < k ==> Plugins.LoadClass(dir, candidates[j]).None?)
  {
    if forall j :: 0 <= j < i ==> Plugins.LoadClass(dir, candidates[j]).None? {
      assert Plugins.LoadClass(dir, candidates[i]).Some?;
    } else {
      var j :| 0 <= j < i && Plugins.LoadClass(dir, candidates[j]).Some?;
      FirstResolvableExists(candidates, dir, j);
    }
  }

  /** Builds a found class with the factory's arguments and casts it to the
      factory shape: `getConstructor`, `newInstance` and the cast, any of
      whose exceptions is rethrown as an exception of `kind` whose message
      names the class. */
  function Instantiate<D>(res: Resolved, config: Config, cast: JavaObject -> Option<D>, kind: ExceptionKind): (r: Result<D, LoadError>)
    ensures r.Failure? ==> r.error.kind == kind && r.error.message == LoadFailureMessage(res.factoryClass)
    ensures r.Success? <==>
      && res.cls.fourArgConstructor.Some?
      && res.cls.fourArgConstructor.value(config).Constructed?
      && cast(res.cls.fourArgConstructor.value(config).obj).Some?
    ensures r.Success? ==> Some(r.value) == cast(res.cls.fourArgConstructor.value(config).obj)
  {
    match res.cls.fourArgConstructor
    case None => Failure(LoadError(kind, LoadFailureMessage(res.factoryClass), NoSuchConstructor))
    case Some(ctor) =>
      match ctor(config)
      case Threw(reason) => Failure(LoadError(kind, LoadFailureMessage(res.factoryClass), ConstructorThrew(reason)))
      case Constructed(obj) =>
        match cast(obj)
        case None => Failure(LoadError(kind, LoadFailureMessage(res.factoryClass), ClassCast))
        case Some(d) => Success(d)
  }

  /** What constructing a delegating factory yields: no delegate when no
      candidate resolves (absence is not an error), otherwise the first
      resolved candidate built by Instantiate, whose failure is thrown. */
  function ResolveDelegate<D>(candidates: seq<ClassName>, dir: Plugins.Directory, config: Config,
                              cast: JavaObject -> Option<D>, kind: ExceptionKind): (r: Result<Option<D>, LoadError>)
    ensures r == Success(None) <==> ResolveFirst(candidates, dir).None?
    ensures r.Failure? ==>
      && ResolveFirst(candidates, dir).Some?
      && r.error.kind == kind
      && r.error.message == LoadFailureMessage(ResolveFirst(candidates, dir).value.factoryClass)
  {
    match ResolveFirst(candidates, dir)
    case None => Success(None)
    case Some(res) => ToDelegate(Instantiate(res, config, cast, kind))
  }

  /** The delegate a successful build gives; a failed build stays a failure. */
  function ToDelegate<D>(built: Result<D, LoadError>): Result<Option<D>, LoadError> {
    match built
    case Failure(e) => Failure(e)
    case Success(d) => Success(Some(d))
  }

  /** No fall-through: the outcome depends on the first resolvable candidate
      alone. When it fails to build, the construction fails even if a later
      candidate would have built. */
  lemma OnlyFirstFoundMatters<D>(candidates: seq<ClassName>, dir: Plugins.Directory, config: Config,
                                 cast: JavaObject -> Option<D>, kind: ExceptionKind, k: nat)
    requires k < |candidates| && Plugins.LoadClass(dir, candidates[k]).Some?
    requires forall j :: 0 <= j < k ==> Plugins.LoadClass(dir, candidates[j]).None?
    ensures ResolveDelegate(candidates, dir, config, cast, kind) == ResolveDelegate([candidates[k]], dir, config, cast, kind)
  {
    ResolveFirstPicksFirstFound(candidates, dir, k);
    ResolveFirstPicksFirstFound([candidates[k]], dir, 0);
  }

  /** With no plugins installed nothing resolves and no delegate is held. */
  lemma EmptyDirectoryHasNoDelegate<D>(candidates: seq<ClassName>, config: Config,
                                       cast: JavaObject -> Option<D>, kind: ExceptionKind)
    ensures ResolveDelegate(candidates, [], config, cast, kind) == Success(None)
  {
    forall k | 0 <= k < |candidates| ensures Plugins.LoadClass([], candidates[k]).None? { }
  }

  /** The constructor loop of the factories: try the candidates in order with
      the service's loadClass; at the first one found, build it and stop.
      `looked` records the names looked up: a prefix of the candidates whose
      every entry but the last is missing; all of them when nothing is
      found, and ending with the found one otherwise, so later candidates
      are never looked up. */
  method ResolveDelegateLoop<D>(candidates: seq<ClassName>, service: Service.FessAnalysisService, config: Config,
                                cast: JavaObject -> Option<D>, kind: ExceptionKind)
    returns (r: Result<Option<D>, LoadError>, ghost looked: seq<ClassName>)
    requires service.plugins.Some?
    ensures r == ResolveDelegate(candidates, service.plugins.value, config, cast, kind)
    ensures looked <= candidates
    ensures forall j :: 0 <= j < |looked| - 1 ==> Plugins.LoadClass(service.plugins.value, looked[j]).None?
    ensures r == Success(None) ==> looked == candidates
    ensures r != Success(None) ==> |looked| > 0 && Plugins.LoadClass(service.plugins.value, looked[|looked| - 1]).Some?
  {
    ghost var dir := service.plugins.value;
    r := Success(None);
    looked := [];
    for i := 0 to |candidates|
      invariant looked == candidates[..i]
      invariant forall j :: 0 <= j < i ==> Plugins.LoadClass(dir, candidates[j]).None?
    {
      var factoryClass := candidates[i];
      var cls := service.LoadClass(factoryClass);
      looked := looked + [factoryClass];
      if cls.Some? {
        ResolveFirstPicksFirstFound(candidates, dir, i);
        r := ToDelegate(Instantiate(Resolved(factoryClass, cls.value), config, cast, kind));
        return;
      }
    }
  }
}

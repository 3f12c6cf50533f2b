/** JapaneseIterationMarkCharFilterFactory: the char filter
    `fess_japanese_iteration_mark`, delegating to the first installed
    Kuromoji iteration-mark char filter, or passing the text through. */
module IterationMark {
  import opened Wrappers
  import opened Analysis
  import Plugins
  import Service
  import Resolution

  /** The candidate implementations, most preferred first. */
  const Factories: seq<ClassName> := [
    "org.codelibs.elasticsearch.kuromoji.neologd.index.analysis.KuromojiIterationMarkCharFilterFactory",
    "org.codelibs.elasticsearch.extension.analysis.KuromojiIterationMarkCharFilterFactory",
    "org.codelibs.elasticsearch.ja.analysis.KuromojiIterationMarkCharFilterFactory"
  ]

  /** The delegate (or its absence) resolved from `dir`, or the exception
      the Java constructor throws: no delegate and no error exactly when no
      plugin provides any candidate, and every failure is an ElasticsearchException
      naming one of the candidates. */
  function Resolve(dir: Plugins.Directory, config: Config): (r: Result<Option<CharFilterFactory>, LoadError>)
    ensures r == Success(None) <==> forall k :: 0 <= k < |Factories| ==> Plugins.LoadClass(dir, Factories[k]).None?
    ensures r.Failure? ==> r.error.kind == ElasticsearchException
    ensures r.Failure? ==> exists k :: 0 <= k < |Factories| && r.error.message == LoadFailureMessage(Factories[k])
  {
    Resolution.ResolveDelegate(Factories, dir, config, AsCharFilterFactory, ElasticsearchException)
  }

  class JapaneseIterationMarkCharFilterFactory {
    const name: string

    /** The delegate; None (Java `null`) when no candidate is installed.
        Set by the constructor and never written again. */
    const charFilterFactory: Option<CharFilterFactory>

    /** The plugin list and the arguments the delegate was resolved from. */
    ghost const directory: Plugins.Directory
    ghost const config: Config

    ghost predicate Valid()
      reads this
    {
      Resolve(directory, config) == Success(charFilterFactory)
    }

    /** Stores the outcome of a successful resolution. */
    constructor FromResolved(config: Config, ghost directory: Plugins.Directory, delegate: Option<CharFilterFactory>)
      requires Resolve(directory, config) == Success(delegate)
      ensures Valid()
      ensures name == config.name && charFilterFactory == delegate
      ensures this.directory == directory && this.config == config
    {
      name := config.name;
      charFilterFactory := delegate;
      this.directory := directory;
      this.config := config;
    }

    /** `new JapaneseIterationMarkCharFilterFactory(indexSettings, env, name,
        settings, service)`: either the exception of the first found
        candidate's failed build, or a fresh factory holding the resolved
        delegate. `looked` is the trace of the names looked up: later
        candidates than the one found are never looked up. */
    static method New(config: Config, service: Service.FessAnalysisService)
      returns (r: Result<JapaneseIterationMarkCharFilterFactory, LoadError>, ghost looked: seq<ClassName>)
      requires service.plugins.Some?
      ensures looked <= Factories
      ensures forall j :: 0 <= j < |looked| - 1 ==> Plugins.LoadClass(service.plugins.value, looked[j]).None?
      ensures Resolve(service.plugins.value, config) == Success(None) ==> looked == Factories
      ensures Resolve(service.plugins.value, config) != Success(None) ==>
        |looked| > 0 && Plugins.LoadClass(service.plugins.value, looked[|looked| - 1]).Some?
      ensures r.Failure? <==> Resolve(service.plugins.value, config).Failure?
      ensures r.Failure? ==> r.error == Resolve(service.plugins.value, config).error
      ensures r.Success? ==> fresh(r.value) && r.value.Valid()
      ensures r.Success? ==> r.value.directory == service.plugins.value && r.value.config == config
    {
      var resolved;
      resolved, looked := Resolution.ResolveDelegateLoop(Factories, service, config, AsCharFilterFactory, ElasticsearchException);
      if resolved.Failure? {
        r := Failure(resolved.error);
      } else {
        var f := new JapaneseIterationMarkCharFilterFactory.FromResolved(config, service.plugins.value, resolved.value);
        r := Success(f);
      }
    }

    /** create(reader): the delegate's filtered reader, or the same reader
        unchanged when there is no delegate. */
    function Create(reader: Reader): (r: Reader)
      reads this
      ensures charFilterFactory.None? ==> r == reader
      ensures charFilterFactory.Some? ==> r == charFilterFactory.value.create(reader)
    {
      if charFilterFactory.Some? then charFilterFactory.value.create(reader) else reader
    }
  }

  /** When no plugin provides any candidate, the filter is the identity. */
  lemma CreateIsIdentityWithoutProvider(f: JapaneseIterationMarkCharFilterFactory, reader: Reader)
    requires f.Valid()
    requires forall k :: 0 <= k < |Factories| ==> Plugins.LoadClass(f.directory, Factories[k]).None?
    ensures f.Create(reader) == reader
  {
  }

  /** When a candidate is installed, the filter forwards to the first one
      found, built with the factory's own arguments. */
  lemma CreateForwardsToFirstFound(f: JapaneseIterationMarkCharFilterFactory, reader: Reader, k: nat)
    requires f.Valid()
    requires k < |Factories| && Plugins.LoadClass(f.directory, Factories[k]).Some?
    requires forall j :: 0 <= j < k ==> Plugins.LoadClass(f.directory, Factories[j]).None?
    ensures var built := Resolution.Instantiate(
              Resolution.Resolved(Factories[k], Plugins.LoadClass(f.directory, Factories[k]).value),
              f.config, AsCharFilterFactory, ElasticsearchException);
            built.Success? && f.Create(reader) == built.value.create(reader)
  {
    Resolution.ResolveFirstPicksFirstFound(Factories, f.directory, k);
  }

  /** A factory built when no plugin is installed holds no delegate, so its
      filter is the identity. */
  lemma EmptyDirectoryGivesIdentity(f: JapaneseIterationMarkCharFilterFactory, reader: Reader)
    requires f.Valid() && f.directory == []
    ensures f.Create(reader) == reader
  {
    Resolution.EmptyDirectoryHasNoDelegate(Factories, f.config, AsCharFilterFactory, ElasticsearchException);
  }
}

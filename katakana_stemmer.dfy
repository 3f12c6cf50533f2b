/** JapaneseKatakanaStemmerFactory: the token filter `fess_japanese_stemmer`,
    delegating to the Kuromoji katakana stemmer when it is installed, or
    passing the tokens through. */
module KatakanaStemmer {
  import opened Wrappers
  import opened Analysis
  import Plugins
  import Service
  import Resolution

  /** The one candidate implementation. */
  const Factories: seq<ClassName> := [
    "org.codelibs.fesen.extension.kuromoji.index.analysis.KuromojiKatakanaStemmerFactory"
  ]

  /** The delegate (or its absence) resolved from `dir`, or the exception
      the Java constructor throws: no delegate and no error exactly when no
      plugin provides any candidate, and every failure is an ElasticsearchException
      naming one of the candidates. */
  function Resolve(dir: Plugins.Directory, config: Config): (r: Result<Option<TokenFilterFactory>, LoadError>)
    ensures r == Success(None) <==> forall k :: 0 <= k < |Factories| ==> Plugins.LoadClass(dir, Factories[k]).None?
    ensures r.Failure? ==> r.error.kind == ElasticsearchException
    ensures r.Failure? ==> exists k :: 0 <= k < |Factories| && r.error.message == LoadFailureMessage(Factories[k])
  {
    Resolution.ResolveDelegate(Factories, dir, config, AsTokenFilterFactory, ElasticsearchException)
  }

  class JapaneseKatakanaStemmerFactory {
    const name: string

    /** The delegate; None (Java `null`) when the candidate is not installed.
        Set by the constructor and never written again. */
    const tokenFilterFactory: Option<TokenFilterFactory>

    /** The plugin list and the arguments the delegate was resolved from. */
    ghost const directory: Plugins.Directory
    ghost const config: Config

    ghost predicate Valid()
      reads this
    {
      Resolve(directory, config) == Success(tokenFilterFactory)
    }

    /** Stores the outcome of a successful resolution. */
    constructor FromResolved(config: Config, ghost directory: Plugins.Directory, delegate: Option<TokenFilterFactory>)
      requires Resolve(directory, config) == Success(delegate)
      ensures Valid()
      ensures name == config.name && tokenFilterFactory == delegate
      ensures this.directory == directory && this.config == config
    {
      name := config.name;
      tokenFilterFactory := delegate;
      this.directory := directory;
      this.config := config;
    }

    /** `new JapaneseKatakanaStemmerFactory(indexSettings, env, name,
        settings, service)`: either the exception of the candidate's failed
        build, or a fresh factory holding the resolved delegate. `looked`
        is the trace of the names looked up: the one candidate, looked up
        exactly once. */
    static method New(config: Config, service: Service.FessAnalysisService)
      returns (r: Result<JapaneseKatakanaStemmerFactory, LoadError>, ghost looked: seq<ClassName>)
      requires service.plugins.Some?
      ensures looked == Factories
      ensures r.Failure? <==> Resolve(service.plugins.value, config).Failure?
      ensures r.Failure? ==> r.error == Resolve(service.plugins.value, config).error
      ensures r.Success? ==> fresh(r.value) && r.value.Valid()
      ensures r.Success? ==> r.value.directory == service.plugins.value && r.value.config == config
    {
      var resolved;
      resolved, looked := Resolution.ResolveDelegateLoop(Factories, service, config, AsTokenFilterFactory, ElasticsearchException);
      if resolved.Failure? {
        r := Failure(resolved.error);
      } else {
        var f := new JapaneseKatakanaStemmerFactory.FromResolved(config, service.plugins.value, resolved.value);
        r := Success(f);
      }
    }

    /** create(tokenStream): the delegate's filtered stream, or the same
        stream unchanged when there is no delegate. */
    function Create(tokenStream: TokenStream): (r: TokenStream)
      reads this
      ensures tokenFilterFactory.None? ==> r == tokenStream
      ensures tokenFilterFactory.Some? ==> r == tokenFilterFactory.value.create(tokenStream)
    {
      if tokenFilterFactory.Some? then tokenFilterFactory.value.create(tokenStream) else tokenStream
    }
  }

  /** With its single candidate, the factory holds a delegate exactly when
      some plugin provides that class and the class builds as a token filter
      factory; a class that is found but does not build is an exception. */
  lemma SingleCandidateOutcome(dir: Plugins.Directory, config: Config)
    ensures Plugins.LoadClass(dir, Factories[0]).None? <==> Resolve(dir, config) == Success(None)
    ensures Plugins.LoadClass(dir, Factories[0]).Some? ==>
      var built := Resolution.Instantiate(Resolution.Resolved(Factories[0], Plugins.LoadClass(dir, Factories[0]).value),
                                          config, AsTokenFilterFactory, ElasticsearchException);
      (built.Success? ==> Resolve(dir, config) == Success(Some(built.value)))
      && (built.Failure? ==> Resolve(dir, config) == Failure(built.error))
  {
    if Plugins.LoadClass(dir, Factories[0]).Some? {
      Resolution.ResolveFirstPicksFirstFound(Factories, dir, 0);
    }
  }

  /** When the candidate is not installed, the filter is the identity. */
  lemma CreateIsIdentityWithoutProvider(f: JapaneseKatakanaStemmerFactory, tokenStream: TokenStream)
    requires f.Valid()
    requires Plugins.LoadClass(f.directory, Factories[0]).None?
    ensures f.Create(tokenStream) == tokenStream
  {
    SingleCandidateOutcome(f.directory, f.config);
  }
}

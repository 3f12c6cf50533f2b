/** VietnameseTokenizerFactory: the tokenizer `fess_vietnamese_tokenizer`,
    delegating to the Vietnamese tokenizer factory when it is installed, or
    yielding no tokens. It looks up a single class name, without a loop. */
module VietnameseTokenizer {
  import opened Wrappers
  import opened Analysis
  import Plugins
  import Service
  import Resolution

  const Factory: ClassName := "org.codelibs.elasticsearch.vi.analysis.VietnameseTokenizerFactory"

  /** The delegate (or its absence) resolved from `dir`, or the
      FesenException the Java constructor throws. */
  function Resolve(dir: Plugins.Directory, config: Config): (r: Result<Option<TokenizerFactory>, LoadError>)
    ensures r == Success(None) <==> Plugins.LoadClass(dir, Factory).None?
    ensures r.Failure? ==> r.error.kind == FesenException && r.error.message == LoadFailureMessage(Factory)
  {
    Resolution.ResolveDelegate([Factory], dir, config, AsTokenizerFactory, FesenException)
  }

  class VietnameseTokenizerFactory {
    const name: string

    /** The delegate; None (Java `null`) when the class is not installed.
        Set by the constructor and never written again. */
    const tokenizerFactory: Option<TokenizerFactory>

    /** The plugin list and the arguments the delegate was resolved from. */
    ghost const directory: Plugins.Directory
    ghost const config: Config

    ghost predicate Valid()
      reads this
    {
      Resolve(directory, config) == Success(tokenizerFactory)
    }

    /** Stores the outcome of a successful resolution. */
    constructor FromResolved(config: Config, ghost directory: Plugins.Directory, delegate: Option<TokenizerFactory>)
      requires Resolve(directory, config) == Success(delegate)
      ensures Valid()
      ensures name == config.name && tokenizerFactory == delegate
      ensures this.directory == directory && this.config == config
    {
      name := config.name;
      tokenizerFactory := delegate;
      this.directory := directory;
      this.config := config;
    }

    /** `new VietnameseTokenizerFactory(indexSettings, env, name, settings,
        service)`: one loadClass call, recorded in `looked`; when it finds
        the class, the class is built and cast, and a failure there is a
        FesenException naming it. */
    static method New(config: Config, service: Service.FessAnalysisService)
      returns (r: Result<VietnameseTokenizerFactory, LoadError>, ghost looked: seq<ClassName>)
      requires service.plugins.Some?
      ensures looked == [Factory]
      ensures r.Failure? <==> Resolve(service.plugins.value, config).Failure?
      ensures r.Failure? ==> r.error == Resolve(service.plugins.value, config).error
      ensures r.Success? ==> fresh(r.value) && r.value.Valid()
      ensures r.Success? ==> r.value.directory == service.plugins.value && r.value.config == config
    {
      ghost var dir := service.plugins.value;
      var cls := service.LoadClass(Factory);
      looked := [Factory];
      var delegate: Option<TokenizerFactory> := None;
      if cls.Some? {
        Resolution.ResolveFirstPicksFirstFound([Factory], dir, 0);
        var built := Resolution.Instantiate(Resolution.Resolved(Factory, cls.value), config, AsTokenizerFactory, FesenException);
        if built.Failure? {
          r := Failure(built.error);
          return;
        }
        delegate := Some(built.value);
      }
      var f := new VietnameseTokenizerFactory.FromResolved(config, dir, delegate);
      r := Success(f);
    }

    /** create(): the delegate's tokenizer, or an EmptyTokenizer, which
        yields no token for any text, when there is no delegate. */
    function Create(): (r: Tokenizer)
      reads this
      ensures tokenizerFactory.None? ==> forall text :: r.tokenize(text) == []
      ensures tokenizerFactory.Some? ==> r == tokenizerFactory.value.create()
    {
      if tokenizerFactory.Some? then tokenizerFactory.value.create() else EmptyTokenizer
    }
  }

  /** The one lookup decides: not found is a factory without delegate and no
      error; found is the class built as a tokenizer factory, or a
      FesenException "Failed to load " + the class name. */
  lemma LookupDecidesOutcome(dir: Plugins.Directory, config: Config)
    ensures Plugins.LoadClass(dir, Factory).None? <==> Resolve(dir, config) == Success(None)
    ensures Plugins.LoadClass(dir, Factory).Some? ==>
      var built := Resolution.Instantiate(Resolution.Resolved(Factory, Plugins.LoadClass(dir, Factory).value),
                                          config, AsTokenizerFactory, FesenException);
      (built.Success? ==> Resolve(dir, config) == Success(Some(built.value)))
      && (built.Failure? ==> Resolve(dir, config) == Failure(built.error)
                             && built.error == LoadError(FesenException, LoadFailureMessage(Factory), built.error.cause))
  {
    if Plugins.LoadClass(dir, Factory).Some? {
      Resolution.ResolveFirstPicksFirstFound([Factory], dir, 0);
    }
  }

  /** When the class is not installed, the tokenizer yields no token. */
  lemma CreateYieldsNothingWithoutProvider(f: VietnameseTokenizerFactory, text: Reader)
    requires f.Valid()
    requires Plugins.LoadClass(f.directory, Factory).None?
    ensures f.Create().tokenize(text) == []
  {
    LookupDecidesOutcome(f.directory, f.config);
  }
}

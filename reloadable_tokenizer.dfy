/** ReloadableJapaneseTokenizerFactory: the tokenizer
    `fess_japanese_reloadable_tokenizer`, delegating to the first installed
    reloadable Kuromoji tokenizer, or yielding no tokens. */
module ReloadableTokenizer {
  import opened Wrappers
  import opened Analysis
  import Plugins
  import Service
  import Resolution

  /** The candidate implementations, most preferred first. The last one is a
      base-form filter factory, not a tokenizer factory. */
  const Factories: seq<ClassName> := [
    "org.codelibs.elasticsearch.kuromoji.neologd.index.analysis.ReloadableKuromojiTokenizerFactory",
    "org.codelibs.elasticsearch.extension.analysis.ReloadableKuromojiTokenizerFactory",
    "org.codelibs.elasticsearch.ja.analysis.ReloadableKuromojiTokenizerFactory",
    BaseFormFilterFactory
  ]

  const BaseFormFilterFactory: ClassName := "org.codelibs.elasticsearch.extension.analysis.KuromojiBaseFormFilterFactory"

  /** The delegate (or its absence) resolved from `dir`, or the exception
      the Java constructor throws: no delegate and no error exactly when no
      plugin provides any candidate, and every failure is an ElasticsearchException
      naming one of the candidates. */
  function Resolve(dir: Plugins.Directory, config: Config): (r: Result<Option<TokenizerFactory>, LoadError>)
    ensures r == Success(None) <==> forall k :: 0 <= k < |Factories| ==> Plugins.LoadClass(dir, Factories[k]).None?
    ensures r.Failure? ==> r.error.kind == ElasticsearchException
    ensures r.Failure? ==> exists k :: 0 <= k < |Factories| && r.error.message == LoadFailureMessage(Factories[k])
  {
    Resolution.ResolveDelegate(Factories, dir, config, AsTokenizerFactory, ElasticsearchException)
  }

  class ReloadableJapaneseTokenizerFactory {
    const name: string

    /** The delegate; None (Java `null`) when no candidate is installed.
        Set by the constructor and never written again. */
    const tokenizerFactory: Option<TokenizerFactory>

    /** The plugin list and the arguments the delegate was resolved from. */
    ghost const directory: Plugins.Directory
    ghost const config: Config

    ghost predicate Valid()
      reads this
    {
      Resolve(directory, config) == Success(tokenizerFactory)
    }

    /** Stores the outcome of a successful resolution. */
    constructor FromResolved(config: Config, ghost directory: Plugins.Directory, delegate: Option<TokenizerFactory>)
      requires Resolve(directory, config) == Success(delegate)
      ensures Valid()
      ensures name == config.name && tokenizerFactory == delegate
      ensures this.directory == directory && this.config == config
    {
      name := config.name;
      tokenizerFactory := delegate;
      this.directory := directory;
      this.config := config;
    }

    /** `new ReloadableJapaneseTokenizerFactory(indexSettings, env, name,
        settings, service)`: either the exception of the first found
        candidate's failed build, or a fresh factory holding the resolved
        delegate. `looked` is the trace of the names looked up: later
        candidates than the one found are never looked up. */
    static method New(config: Config, service: Service.FessAnalysisService)
      returns (r: Result<ReloadableJapaneseTokenizerFactory, LoadError>, ghost looked: seq<ClassName>)
      requires service.plugins.Some?
      ensures looked <= Factories
      ensures forall j :: 0 <= j < |looked| - 1 ==> Plugins.LoadClass(service.plugins.value, looked[j]).None?
      ensures Resolve(service.plugins.value, config) == Success(None) ==> looked == Factories
      ensures Resolve(service.plugins.value, config) != Success(None) ==>
        |looked| > 0 && Plugins.LoadClass(service.plugins.value, looked[|looked| - 1]).Some?
      ensures r.Failure? <==> Resolve(service.plugins.value, config).Failure?
      ensures r.Failure? ==> r.error == Resolve(service.plugins.value, config).error
      ensures r.Success? ==> fresh(r.value) && r.value.Valid()
      ensures r.Success? ==> r.value.directory == service.plugins.value && r.value.config == config
    {
      var resolved;
      resolved, looked := Resolution.ResolveDelegateLoop(Factories, service, config, AsTokenizerFactory, ElasticsearchException);
      if resolved.Failure? {
        r := Failure(resolved.error);
      } else {
        var f := new ReloadableJapaneseTokenizerFactory.FromResolved(config, service.plugins.value, resolved.value);
        r := Success(f);
      }
    }

    /** create(): the delegate's tokenizer, or an EmptyTokenizer, which
        yields no token for any text, when there is no delegate. */
    function Create(): (r: Tokenizer)
      reads this
      ensures tokenizerFactory.None? ==> forall text :: r.tokenize(text) == []
      ensures tokenizerFactory.Some? ==> r == tokenizerFactory.value.create()
    {
      if tokenizerFactory.Some? then tokenizerFactory.value.create() else EmptyTokenizer
    }
  }

  /** When no plugin provides any candidate, the tokenizer yields no token. */
  lemma CreateYieldsNothingWithoutProvider(f: ReloadableJapaneseTokenizerFactory, text: Reader)
    requires f.Valid()
    requires forall k :: 0 <= k < |Factories| ==> Plugins.LoadClass(f.directory, Factories[k]).None?
    ensures f.Create().tokenize(text) == []
  {
  }

  /** When the base-form filter factory is the first candidate found and the
      object it builds is not a tokenizer factory, the cast fails inside the
      same `try`, and construction throws the error naming that class. No
      earlier or later candidate is consulted. */
  lemma BaseFormCandidateFailsCast(dir: Plugins.Directory, config: Config)
    requires forall j :: 0 <= j < 3 ==> Plugins.LoadClass(dir, Factories[j]).None?
    requires Plugins.LoadClass(dir, Factories[3]).Some?
    requires var ctor := Plugins.LoadClass(dir, Factories[3]).value.fourArgConstructor;
             ctor.Some? && ctor.value(config).Constructed? && ctor.value(config).obj.asTokenizerFactory.None?
    ensures Resolve(dir, config) == Failure(LoadError(ElasticsearchException, LoadFailureMessage(BaseFormFilterFactory), ClassCast))
  {
    Resolution.ResolveFirstPicksFirstFound(Factories, dir, 3);
  }

  /** A found candidate whose constructor throws on the given settings makes
      construction fail, although a later candidate may be installed too. */
  lemma ThrowingConstructorIsFatal(dir: Plugins.Directory, config: Config, k: nat)
    requires k < |Factories| && Plugins.LoadClass(dir, Factories[k]).Some?
    requires forall j :: 0 <= j < k ==> Plugins.LoadClass(dir, Factories[j]).None?
    requires var ctor := Plugins.LoadClass(dir, Factories[k]).value.fourArgConstructor;
             ctor.Some? && ctor.value(config).Threw?
    ensures Resolve(dir, config).Failure?
    ensures Resolve(dir, config).error.message == LoadFailureMessage(Factories[k])
    ensures Resolve(dir, config).error.cause.ConstructorThrew?
  {
    Resolution.ResolveFirstPicksFirstFound(Factories, dir, k);
  }
}

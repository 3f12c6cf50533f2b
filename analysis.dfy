/** The values the host analysis engine hands to the plugin and gets back:
    character streams, token streams, the four constructor arguments of an
    analysis factory, the three factory shapes, and the classes and objects
    that an optional plugin's class loader yields. */
module Analysis {
  import opened Wrappers

  /** A fully-qualified Java class name. */
  type ClassName = string

  /** A character stream (java.io.Reader), as the characters it yields. */
  type Reader = seq<char>

  datatype Token = Token(term: string, startOffset: nat, endOffset: nat)

  /** A Lucene TokenStream, as the tokens it yields. */
  type TokenStream = seq<Token>

  /** A Lucene Tokenizer, as the tokens it yields for the text it reads. */
  datatype Tokenizer = Tokenizer(tokenize: Reader -> TokenStream)

  /** The plugin's EmptyTokenizer: a tokenizer that yields no token for any text. */
  const EmptyTokenizer: Tokenizer := Tokenizer((text: Reader) => [])

  type Settings = map<string, string>

  datatype IndexSettings = IndexSettings(index: string, settings: Settings)

  datatype Environment = Environment(home: string)

  /** The arguments (IndexSettings, Environment, String, Settings) that every
      analysis factory constructor takes. */
  datatype Config = Config(indexSettings: IndexSettings, env: Environment, name: string, settings: Settings)

  /** The three factory shapes of the host: CharFilterFactory.create(Reader),
      TokenFilterFactory.create(TokenStream) and TokenizerFactory.create().
      What a factory from an optional plugin does is opaque, so it is a
      function value. */
  datatype CharFilterFactory = CharFilterFactory(create: Reader -> Reader)

  datatype TokenFilterFactory = TokenFilterFactory(create: TokenStream -> TokenStream)

  datatype TokenizerFactory = TokenizerFactory(create: () -> Tokenizer)

  /** An object built reflectively, seen through the interfaces it implements;
      a cast to an interface it does not implement throws ClassCastException. */
  datatype JavaObject = JavaObject(
    asCharFilterFactory: Option<CharFilterFactory>,
    asTokenFilterFactory: Option<TokenFilterFactory>,
    asTokenizerFactory: Option<TokenizerFactory>)

  /** What `constructor.newInstance(...)` does: return an object or throw. */
  datatype Construction = Constructed(obj: JavaObject) | Threw(reason: string)

  /** A loaded class, with its public constructor of signature
      (IndexSettings, Environment, String, Settings) if it has one. */
  datatype JavaClass = JavaClass(name: ClassName, fourArgConstructor: Option<Config -> Construction>)

  /** The exception class a factory throws when a found class cannot be built. */
  datatype ExceptionKind = ElasticsearchException | FesenException

  /** The exception wrapped as the cause. */
  datatype Cause = NoSuchConstructor | ConstructorThrew(reason: string) | ClassCast

  datatype LoadError = LoadError(kind: ExceptionKind, message: string, cause: Cause)

  /** The message of the exception that names the class which failed to build. */
  function LoadFailureMessage(factoryClass: ClassName): string {
    "Failed to load " + factoryClass
  }

  /** The three casts, `(CharFilterFactory) o` and so on. */
  function AsCharFilterFactory(o: JavaObject): Option<CharFilterFactory> { o.asCharFilterFactory }

  function AsTokenFilterFactory(o: JavaObject): Option<TokenFilterFactory> { o.asTokenFilterFactory }

  function AsTokenizerFactory(o: JavaObject): Option<TokenizerFactory> { o.asTokenizerFactory }
}

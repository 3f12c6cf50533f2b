# Optional analysis implementations for Fesen: resolution and delegation

The Fess analysis plugin for Fesen provides Japanese, Korean, Vietnamese and
Chinese tokenizers and filters that Fesen itself does not have. The real
implementations live in other, optional plugins, which may or may not be
installed. This project models and proves how the plugin finds them and
forwards to them.

- **FessAnalysisService** (module `Service`). On start it reads the host's
  plugin list. `loadClass(name)` asks each plugin's class loader in load
  order and returns the first class found, or `null`.
- **Candidate resolution** (module `Resolution`). Each analysis factory
  holds an ordered list of candidate class names. Its constructor tries them
  in order and stops at the first one found. It builds that class with
  `(indexSettings, env, name, settings)` and casts it to the factory shape.
  Any failure in that step is thrown. Absence is not an error.
- **The four factories** (modules `IterationMark`, `KatakanaStemmer`,
  `ReloadableTokenizer`, `VietnameseTokenizer`). Each is a class whose
  delegate field is written only at construction. `create` forwards to the
  delegate, or falls back:
  - the char filter returns its reader unchanged;
  - the token filter returns its token stream unchanged;
  - the tokenizers return an `EmptyTokenizer`, which yields no token.
- **Scenarios** (module `Scenarios`): consequences for whole analyzers,
  and how candidate order and plugin order interact.

How the model is built:

- A plugin is its name plus a map from class names to the classes its loader
  can load. A missing key is a `ClassNotFoundException`.
- A loaded class carries its optional 4-argument constructor, as a function
  from the arguments to "built this object" or "threw".
- A built object is seen through the three factory interfaces it may
  implement; a missing one is a failed cast.
- Readers are `seq<char>`, token streams `seq<Token>`, and a tokenizer
  is a function from text to tokens.
- A Java constructor that may throw becomes a static method `New`. It
  returns `Result<Factory, LoadError>` together with its ghost trace of the class names looked up, and on success a fresh object whose
  `Valid()` ties its delegate to the resolution function.
- A field that Java leaves `null` until it is set is an `Option` when it holds a value (`plugins`, the delegates), and a nullable reference `FessAnalysisService?` in `PluginComponent`.

Three points of the behaviour that the contracts fix:

- An unreadable plugin list makes `doStart` throw `ElasticsearchException`;
  the list is never replaced by an empty one.
- `doStart` reads the list again on each call. Running it only once is
  left to the host's lifecycle base class, which is not part of this model.
- The delegate fields are `const`: only the constructor sets them, so
  `create` cannot change which delegate, if any, a factory holds.

## Model

| member | source | states |
|---|---|---|
| Plugins.LoadClass | src/main/java/org/codelibs/fesen/fess/service/FessAnalysisService.java:64-76 | the result is None exactly when no plugin's loader knows the name (so always for no plugins); otherwise it is the class some plugin's loader gives |
| Plugins.LoadClassFirstWins | src/main/java/org/codelibs/fesen/fess/service/FessAnalysisService.java:66-69 | the class comes from the first plugin in load order that knows the name; later plugins are not consulted |
| Plugins.LoadClassIgnoresLaterPlugins | src/main/java/org/codelibs/fesen/fess/service/FessAnalysisService.java:66-69 | appending plugins after one that provides the name does not change the result |
| Plugins.LoadClassSkipsMisses | src/main/java/org/codelibs/fesen/fess/service/FessAnalysisService.java:70-72 | plugins that do not know the name (ClassNotFoundException swallowed) are skipped and the search continues with the rest |
| Service.PluginComponent.constructor | src/main/java/org/codelibs/fesen/fess/FessAnalysisPlugin.java:125-126 | a new holder holds no service |
| Service.PluginComponent.SetFessAnalysisService | src/main/java/org/codelibs/fesen/fess/FessAnalysisPlugin.java:132-134 | the holder then holds exactly the given service |
| Service.PluginComponent.GetFessAnalysisService | src/main/java/org/codelibs/fesen/fess/FessAnalysisPlugin.java:128-130 | returns the held service, null until one is set |
| Service.FessAnalysisService.constructor | src/main/java/org/codelibs/fesen/fess/service/FessAnalysisService.java:28-32 | the new service is unstarted (plugins is null) and the plugin component now returns this very service |
| Service.FessAnalysisService.DoStart | src/main/java/org/codelibs/fesen/fess/service/FessAnalysisService.java:34-52 | a readable host list becomes the plugin list; an unreadable one throws "Failed to access plugins in PluginsService." and leaves the list as it was, never an empty list |
| Service.FessAnalysisService.LoadClass | src/main/java/org/codelibs/fesen/fess/service/FessAnalysisService.java:64-76 | needs a started service; returns exactly the first-match class over the plugin list and changes no state |
| Resolution.ResolveFirst | src/main/java/org/codelibs/fesen/fess/index/analysis/ReloadableJapaneseTokenizerFactory.java:47-48 | None exactly when no candidate is provided by any plugin (so always for an empty list or no plugins); otherwise a candidate from the list together with the class loadClass gives for it |
| Resolution.ResolveFirstPicksFirstFound | src/main/java/org/codelibs/fesen/fess/index/analysis/ReloadableJapaneseTokenizerFactory.java:47-62 | the chosen candidate is the first one, in candidate order, that loadClass finds |
| Resolution.CandidateOrderDominates | src/main/java/org/codelibs/fesen/fess/index/analysis/ReloadableJapaneseTokenizerFactory.java:47-48 | once candidate i is in any plugin, wherever that plugin stands in load order, the choice is candidate i or an earlier one, never a later one |
| Resolution.Instantiate | src/main/java/org/codelibs/fesen/fess/index/analysis/ReloadableJapaneseTokenizerFactory.java:53-61 | building succeeds exactly when the 4-argument constructor exists, does not throw and its object casts to the shape; every failure has the factory's exception kind and the message "Failed to load " + the class name |
| Resolution.ResolveDelegate | src/main/java/org/codelibs/fesen/fess/index/analysis/ReloadableJapaneseTokenizerFactory.java:47-66 | no delegate and no error exactly when nothing resolves; a failure always comes from a resolved candidate and names the first one resolved |
| Resolution.OnlyFirstFoundMatters | src/main/java/org/codelibs/fesen/fess/index/analysis/ReloadableJapaneseTokenizerFactory.java:55-62 | no fall-through: the outcome equals that of the first found candidate alone, so a build failure is final even if a later candidate would build |
| Resolution.EmptyDirectoryHasNoDelegate | src/main/java/org/codelibs/fesen/fess/index/analysis/JapaneseIterationMarkCharFilterFactory.java:39-47 | with no plugins installed, every candidate list gives no delegate and no error |
| Resolution.ResolveDelegateLoop | src/main/java/org/codelibs/fesen/fess/index/analysis/JapaneseIterationMarkCharFilterFactory.java:45-64 | the constructor loop computes ResolveDelegate; the names it looks up are a prefix of the candidates, all missing except the last; all candidates when none is found, ending at the found one otherwise |
| IterationMark.JapaneseIterationMarkCharFilterFactory.FromResolved | src/main/java/org/codelibs/fesen/fess/index/analysis/JapaneseIterationMarkCharFilterFactory.java:39-51 | the object holds the resolved delegate, and Valid() ties it to the resolution over its plugins and arguments |
| IterationMark.Resolve | src/main/java/org/codelibs/fesen/fess/index/analysis/JapaneseIterationMarkCharFilterFactory.java:34-58 | resolution over the three FACTORIES, cast to CharFilterFactory: no delegate and no error exactly when no plugin provides a candidate; every failure is an ElasticsearchException naming one of the candidates |
| IterationMark.JapaneseIterationMarkCharFilterFactory.New | src/main/java/org/codelibs/fesen/fess/index/analysis/JapaneseIterationMarkCharFilterFactory.java:41-65 | construction throws exactly the resolution's error, or yields a fresh valid factory whose delegate is the one resolved from the three candidates; its ghost trace is a prefix of the candidates, all missing but the last, ending at the found one (all of them when none is found) |
| IterationMark.JapaneseIterationMarkCharFilterFactory.Create | src/main/java/org/codelibs/fesen/fess/index/analysis/JapaneseIterationMarkCharFilterFactory.java:67-73 | with a delegate, its filtered reader; without one, the same reader |
| IterationMark.CreateIsIdentityWithoutProvider | src/main/java/org/codelibs/fesen/fess/index/analysis/JapaneseIterationMarkCharFilterFactory.java:72 | when no plugin provides any candidate, create is the identity |
| IterationMark.CreateForwardsToFirstFound | src/main/java/org/codelibs/fesen/fess/index/analysis/JapaneseIterationMarkCharFilterFactory.java:45-70 | when candidate k is the first found, create forwards to the object built from candidate k with the factory's own arguments |
| IterationMark.EmptyDirectoryGivesIdentity | src/main/java/org/codelibs/fesen/fess/index/analysis/JapaneseIterationMarkCharFilterFactory.java:39-72 | a factory built when no plugin is installed holds no delegate, so create is the identity |
| KatakanaStemmer.JapaneseKatakanaStemmerFactory.FromResolved | src/main/java/org/codelibs/fesen/fess/index/analysis/JapaneseKatakanaStemmerFactory.java:37-49 | the object holds the resolved delegate, and Valid() ties it to the resolution over its plugins and arguments |
| KatakanaStemmer.Resolve | src/main/java/org/codelibs/fesen/fess/index/analysis/JapaneseKatakanaStemmerFactory.java:34-56 | resolution over the single FACTORIES entry, cast to TokenFilterFactory: no delegate and no error exactly when no plugin provides it; every failure is an ElasticsearchException naming it |
| KatakanaStemmer.JapaneseKatakanaStemmerFactory.New | src/main/java/org/codelibs/fesen/fess/index/analysis/JapaneseKatakanaStemmerFactory.java:39-64 | construction throws exactly the resolution's error, or yields a fresh valid factory whose delegate is the one resolved from the single candidate; its ghost trace is exactly the one candidate: it is looked up once, found or not |
| KatakanaStemmer.JapaneseKatakanaStemmerFactory.Create | src/main/java/org/codelibs/fesen/fess/index/analysis/JapaneseKatakanaStemmerFactory.java:66-72 | with a delegate, its filtered token stream; without one, the same stream |
| KatakanaStemmer.SingleCandidateOutcome | src/main/java/org/codelibs/fesen/fess/index/analysis/JapaneseKatakanaStemmerFactory.java:43-59 | no delegate and no error exactly when the one candidate is not found; when found, the delegate is its built object, or the build's "Failed to load" error is thrown |
| KatakanaStemmer.CreateIsIdentityWithoutProvider | src/main/java/org/codelibs/fesen/fess/index/analysis/JapaneseKatakanaStemmerFactory.java:71 | when the candidate is not installed, create is the identity |
| ReloadableTokenizer.ReloadableJapaneseTokenizerFactory.FromResolved | src/main/java/org/codelibs/fesen/fess/index/analysis/ReloadableJapaneseTokenizerFactory.java:41-53 | the object holds the resolved delegate, and Valid() ties it to the resolution over its plugins and arguments |
| ReloadableTokenizer.Resolve | src/main/java/org/codelibs/fesen/fess/index/analysis/ReloadableJapaneseTokenizerFactory.java:35-60 | resolution over the four FACTORIES, cast to TokenizerFactory: no delegate and no error exactly when no plugin provides a candidate; every failure is an ElasticsearchException naming one of the candidates |
| ReloadableTokenizer.ReloadableJapaneseTokenizerFactory.New | src/main/java/org/codelibs/fesen/fess/index/analysis/ReloadableJapaneseTokenizerFactory.java:43-67 | construction throws exactly the resolution's error, or yields a fresh valid factory whose delegate is the one resolved from the four candidates; its ghost trace is a prefix of the candidates, all missing but the last, ending at the found one (all of them when none is found) |
| ReloadableTokenizer.ReloadableJapaneseTokenizerFactory.Create | src/main/java/org/codelibs/fesen/fess/index/analysis/ReloadableJapaneseTokenizerFactory.java:69-75 | with a delegate, exactly the tokenizer it creates; without one, a tokenizer that yields no token for any text |
| ReloadableTokenizer.CreateYieldsNothingWithoutProvider | src/main/java/org/codelibs/fesen/fess/index/analysis/ReloadableJapaneseTokenizerFactory.java:70-74 | when no plugin provides any candidate, the created tokenizer yields no token |
| ReloadableTokenizer.BaseFormCandidateFailsCast | src/main/java/org/codelibs/fesen/fess/index/analysis/ReloadableJapaneseTokenizerFactory.java:39-60 | when the base-form filter factory is the first found and is not a tokenizer factory, construction throws "Failed to load" naming it, with a cast failure as cause |
| ReloadableTokenizer.ThrowingConstructorIsFatal | src/main/java/org/codelibs/fesen/fess/index/analysis/ReloadableJapaneseTokenizerFactory.java:55-60 | when the first found candidate's constructor throws, construction fails naming that candidate |
| VietnameseTokenizer.VietnameseTokenizerFactory.FromResolved | src/main/java/org/codelibs/fesen/fess/index/analysis/VietnameseTokenizerFactory.java:38-49 | the object holds the resolved delegate, and Valid() ties it to the resolution over its plugins and arguments |
| VietnameseTokenizer.Resolve | src/main/java/org/codelibs/fesen/fess/index/analysis/VietnameseTokenizerFactory.java:36-57 | resolution of the single FACTORY, cast to TokenizerFactory: no delegate and no error exactly when no plugin provides it; every failure is a FesenException "Failed to load " + FACTORY |
| VietnameseTokenizer.VietnameseTokenizerFactory.New | src/main/java/org/codelibs/fesen/fess/index/analysis/VietnameseTokenizerFactory.java:40-61 | the ghost trace of lookups is exactly [FACTORY], one loadClass call; construction throws exactly the resolution's error, or yields a fresh valid factory holding the resolved delegate |
| VietnameseTokenizer.VietnameseTokenizerFactory.Create | src/main/java/org/codelibs/fesen/fess/index/analysis/VietnameseTokenizerFactory.java:63-69 | with a delegate, exactly the tokenizer it creates; without one, a tokenizer that yields no token for any text |
| VietnameseTokenizer.LookupDecidesOutcome | src/main/java/org/codelibs/fesen/fess/index/analysis/VietnameseTokenizerFactory.java:44-57 | not found is no delegate and no error; found is the built tokenizer factory, or a FesenException "Failed to load " + the class name |
| VietnameseTokenizer.CreateYieldsNothingWithoutProvider | src/main/java/org/codelibs/fesen/fess/index/analysis/VietnameseTokenizerFactory.java:58-68 | when the class is not installed, the created tokenizer yields no token |
| Scenarios.EarlierCandidateInLaterPluginWins | src/main/java/org/codelibs/fesen/fess/index/analysis/ReloadableJapaneseTokenizerFactory.java:47-48 | for candidates [a, b] with a only in the second plugin and b in the first, a is chosen, from the second plugin |
| Scenarios.OnlyInstalledCandidateWins | src/main/java/org/codelibs/fesen/fess/index/analysis/JapaneseIterationMarkCharFilterFactory.java:45-64 | for candidates [a, b, c] where a is not installed and b is in some plugin, b is chosen, in any load order |
| Scenarios.StemmerOverFallbackTokenizerYieldsNothing | src/test/java/org/codelibs/fesen/fess/FessAnalysisPluginTest.java:63-104 | the katakana stemmer over the fallback tokenizer, both built where other plugins may be installed but none provides a candidate, yields no token for any text |
| Scenarios.MissingVietnameseTokenizerYieldsNothing | src/main/java/org/codelibs/fesen/fess/index/analysis/VietnameseTokenizerFactory.java:44-68 | when no plugin has the Vietnamese class, resolution gives no delegate and no error, and a factory built over those plugins yields no token |
| Scenarios.CharFilterWithoutProviderKeepsText | src/main/java/org/codelibs/fesen/fess/index/analysis/JapaneseIterationMarkCharFilterFactory.java:67-73 | the iteration-mark filter built where no plugin provides a candidate passes "hello" through unchanged |

## Left out

- Reflection (`getDeclaredField`, `setAccessible`, class-loader parent delegation, `getConstructor`/`newInstance`): abstracted as a per-plugin name map and an optional constructor function.
- Errors from a class loader other than `ClassNotFoundException` (`NoClassDefFoundError`, linkage errors): these propagate out of `loadClass` in Java; the model has only "found" and "not found".
- Errors that escape the factories' `catch (Exception e)`: an `ExceptionInInitializerError` from class initialisation during `newInstance`, and linkage errors such as `NoClassDefFoundError` from `getConstructor`. The model turns every failure of the build into the wrapped "Failed to load" error. (A throwable raised by the constructor itself reaches the `catch` wrapped in `InvocationTargetException`, as modelled.)
- `AccessController.doPrivileged`: it does not change any result, so it is treated as transparent.
- Debug logging, and `doStop`/`doClose`, which only log.
- The lifecycle guard that runs `doStart` once: it lives in the host's base class, which is not part of this model.
- Concurrency: the host may build factories in parallel, but the code has no synchronisation to model.
- Object identity: `create()` returns a *new* `EmptyTokenizer` each time, but the model treats tokenizers as values. Two fallback tokenizers are equal, rather than distinct objects.
- The linguistic behaviour of delegates, and the internals of `EmptyTokenizer` beyond "yields no token". Delegates are opaque function values.
- The remaining factories that `FessAnalysisPlugin` registers (Japanese, Korean and Chinese tokenizers, base-form, part-of-speech and reading-form filters, traditional-Chinese conversion): their source is not part of this model.
- Registering names to factory lambdas, and the system-index descriptors: static configuration.
- "Matches no documents" in the integration test: query execution is host behaviour. The model proves only that the analyzer yields no token.
- Scenarios.StemmerOverFallbackTokenizerYieldsNothing: the test uses `fess_japanese_tokenizer`, whose factory is not part of this model. The lemma uses the modelled reloadable tokenizer's fallback instead.

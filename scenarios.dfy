/** Whole-pipeline consequences of resolution and delegation: what an
    analyzer built from these factories does when providers are missing,
    and how candidate order and plugin order interact. */
module Scenarios {
  import opened Wrappers
  import opened Analysis
  import Plugins
  import Resolution
  import IterationMark
  import KatakanaStemmer
  import ReloadableTokenizer
  import VietnameseTokenizer

  /** Candidates [a, b]: `a` only in the second plugin, `b` in the first.
      The first candidate still wins, taken from the second plugin. */
  lemma EarlierCandidateInLaterPluginWins(a: ClassName, b: ClassName, p1: Plugins.Plugin, p2: Plugins.Plugin)
    requires a !in p1.loader && a in p2.loader && b in p1.loader
    ensures Resolution.ResolveFirst([a, b], [p1, p2]) == Some(Resolution.Resolved(a, p2.loader[a]))
  {
    Plugins.LoadClassFirstWins([p1, p2], a, 1);
    Resolution.ResolveFirstPicksFirstFound([a, b], [p1, p2], 0);
  }

  /** Candidates [a, b, c] of which only `b` is installed, in whatever plugin
      and load order: `b` is resolved, never `a` or `c`. */
  lemma OnlyInstalledCandidateWins(a: ClassName, b: ClassName, c: ClassName, dir: Plugins.Directory, p: nat)
    requires forall i :: 0 <= i < |dir| ==> a !in dir[i].loader
    requires p < |dir| && b in dir[p].loader
    ensures Resolution.ResolveFirst([a, b, c], dir).Some?
    ensures Resolution.ResolveFirst([a, b, c], dir).value.factoryClass == b
  {
    Resolution.ResolveFirstPicksFirstFound([a, b, c], dir, 1);
  }

  /** An analyzer of a reloadable Japanese tokenizer followed by the katakana
      stemmer, both built while other plugins may be installed but none
      provides any of their candidates, yields no token for any text. */
  lemma StemmerOverFallbackTokenizerYieldsNothing(
    tokenizer: ReloadableTokenizer.ReloadableJapaneseTokenizerFactory,
    stemmer: KatakanaStemmer.JapaneseKatakanaStemmerFactory,
    text: Reader)
    requires tokenizer.Valid()
    requires forall k :: 0 <= k < |ReloadableTokenizer.Factories| ==>
      Plugins.LoadClass(tokenizer.directory, ReloadableTokenizer.Factories[k]).None?
    requires stemmer.Valid()
    requires Plugins.LoadClass(stemmer.directory, KatakanaStemmer.Factories[0]).None?
    ensures stemmer.Create(tokenizer.Create().tokenize(text)) == []
  {
    ReloadableTokenizer.CreateYieldsNothingWithoutProvider(tokenizer, text);
    KatakanaStemmer.CreateIsIdentityWithoutProvider(stemmer, tokenizer.Create().tokenize(text));
  }

  /** When no installed plugin has the Vietnamese class, building the
      tokenizer is not an error, and every factory so built yields no
      token. */
  lemma MissingVietnameseTokenizerYieldsNothing(dir: Plugins.Directory, config: Config,
                                                f: VietnameseTokenizer.VietnameseTokenizerFactory, text: Reader)
    requires forall i :: 0 <= i < |dir| ==> VietnameseTokenizer.Factory !in dir[i].loader
    requires f.Valid() && f.directory == dir
    ensures VietnameseTokenizer.Resolve(dir, config) == Success(None)
    ensures f.Create().tokenize(text) == []
  {
    VietnameseTokenizer.LookupDecidesOutcome(dir, config);
    VietnameseTokenizer.CreateYieldsNothingWithoutProvider(f, text);
  }

  /** The iteration-mark char filter built while other plugins may be
      installed but none provides any of its candidates passes "hello"
      through unchanged. */
  lemma CharFilterWithoutProviderKeepsText(f: IterationMark.JapaneseIterationMarkCharFilterFactory)
    requires f.Valid()
    requires forall k :: 0 <= k < |IterationMark.Factories| ==>
      Plugins.LoadClass(f.directory, IterationMark.Factories[k]).None?
    ensures f.Create("hello") == "hello"
  {
    IterationMark.CreateIsIdentityWithoutProvider(f, "hello");
  }
}

/**
 * Language tags: normalising an arbitrary tag to one of the supported
 * languages, and choosing the start-up language.
 */
module Locale {
  import opened Wrappers
  import opened Strings

  /** The languages the component offers, in the order it declares them. */
  const Supported: seq<string> := ["en", "de", "fr", "it", "hu"]

  /** The fallback language. */
  const Default: string := "de"

  /**
   * `normalizeLang`: lower-case the tag (an empty tag counts as the
   * default), keep its first two characters, and fall back to the default
   * when they are not a supported language.
   */
  function NormalizeLang(lang: string): (r: string)
    ensures r in Supported
  {
    var two := Take(Lower(if lang == "" then Default else lang), 2);
    if two in Supported then two else Default
  }

  /** The two-letter prefix, lower-cased, decides the result. */
  lemma NormalizeLangPrefix(lang: string)
    ensures Lower(Take(lang, 2)) in Supported ==> NormalizeLang(lang) == Lower(Take(lang, 2))
    ensures Lower(Take(lang, 2)) !in Supported ==> NormalizeLang(lang) == Default
  {
    LowerTake(lang, 2);
    if lang == "" {
      assert Lower(Take(lang, 2)) == "";
      assert Take(Lower(Default), 2) == Default;
    }
  }

  /**
   * A supported language other than the default is chosen exactly when the
   * tag starts with it, in any letter case.
   */
  lemma NormalizeLangChooses(lang: string, t: string)
    requires t in Supported && t != Default
    ensures NormalizeLang(lang) == t <==> |lang| >= 2 && Lower(lang[..2]) == t
  {
    NormalizeLangPrefix(lang);
  }

  /** A supported language is its own normal form. */
  lemma NormalizeLangSupported(t: string)
    requires t in Supported
    ensures NormalizeLang(t) == t
  {
    assert |t| == 2 && t[0] in "endfrithu" && t[1] in "endfrithu";
    LowerFixed(t);
    NormalizeLangPrefix(t);
  }

  /** Normalising twice is normalising once. */
  lemma NormalizeLangIdempotent(lang: string)
    ensures NormalizeLang(NormalizeLang(lang)) == NormalizeLang(lang)
  {
    NormalizeLangSupported(NormalizeLang(lang));
  }

  /** Region and script suffixes are dropped, whatever their case. */
  lemma NormalizeLangRegion()
    ensures NormalizeLang("de-CH") == "de"
    ensures NormalizeLang("IT_it") == "it"
  {
    NormalizeLangPrefix("de-CH");
    assert Take("de-CH", 2) == "de";
    LowerFixed("de");
    NormalizeLangPrefix("IT_it");
    assert Take("IT_it", 2) == "IT";
    assert Lower("IT") == "it" by {
      assert Lower("IT")[0] == 'i' && Lower("IT")[1] == 't';
    }
  }

  /** Tags that are not supported, or too short, fall back to the default. */
  lemma NormalizeLangFallback()
    ensures NormalizeLang("es-ES") == Default
    ensures NormalizeLang("e") == Default
    ensures NormalizeLang("") == Default
  {
    NormalizeLangPrefix("es-ES");
    assert Take("es-ES", 2) == "es";
    LowerFixed("es");
    NormalizeLangPrefix("e");
    LowerFixed("e");
    NormalizeLangPrefix("");
  }

  /** JavaScript's `a || b` on an optional string: `null` and `""` give `b`. */
  function OrElse(a: Option<string>, b: string): string
  {
    if a.Some? && a.value != "" then a.value else b
  }

  /**
   * The start-up language: the `lang` query parameter, else the stored
   * preference, else the default, normalised.
   */
  function InitialLang(fromUrl: Option<string>, stored: Option<string>): (r: string)
    ensures r in Supported
  {
    NormalizeLang(OrElse(fromUrl, OrElse(stored, Default)))
  }

  /** Which source decides the start-up language; an empty value falls through. */
  lemma InitialLangOrder(fromUrl: Option<string>, stored: Option<string>)
    ensures fromUrl.Some? && fromUrl.value != "" ==> InitialLang(fromUrl, stored) == NormalizeLang(fromUrl.value)
    ensures (fromUrl.None? || fromUrl.value == "") && stored.Some? && stored.value != ""
            ==> InitialLang(fromUrl, stored) == NormalizeLang(stored.value)
    ensures (fromUrl.None? || fromUrl.value == "") && (stored.None? || stored.value == "")
            ==> InitialLang(fromUrl, stored) == Default
  {
    NormalizeLangSupported(Default);
  }

  /** A supported `lang` parameter wins whatever is stored. */
  lemma InitialLangFromSupportedUrl(t: string, stored: Option<string>)
    requires t in Supported
    ensures InitialLang(Some(t), stored) == t
  {
    NormalizeLangSupported(t);
  }

  /** An unsupported `lang` parameter yields the default, whatever is stored. */
  lemma InitialLangFromUnsupportedUrl(x: string, stored: Option<string>)
    requires x != "" && Lower(Take(x, 2)) !in Supported
    ensures InitialLang(Some(x), stored) == Default
  {
    NormalizeLangPrefix(x);
  }
}

/** The translation backend interface and the language-code mapper
    (pkg/translate/translator.go). */
module Translator {
  import opened Wrappers
  import Text

  /** A translation backend: text, source code, target code to the translated
      text or the backend's error message.  The backends themselves (HTTP
      clients, worker pool, subprocess) are outside this function type. */
  type Engine = (string, string, string) -> Result<string, string>

  /** Lower-casing of one character as `strings.ToLower` does it for ASCII. */
  function LowerChar(c: char): (r: char)
    ensures 'A' <= c <= 'Z' ==> r as int == c as int + 32
    ensures !('A' <= c <= 'Z') ==> r == c
  {
    if 'A' <= c <= 'Z' then (c as int + 32) as char else c
  }

  /** `strings.ToLower`, character by character. */
  function Lower(s: string): (r: string)
    ensures |r| == |s|
    ensures forall i :: 0 <= i < |s| ==> r[i] == LowerChar(s[i])
  {
    seq(|s|, i requires 0 <= i < |s| => LowerChar(s[i]))
  }

  const Separators: set<char> := {'-', '_'}

  /** `LanguageMapper.ToBackendCode`: lower-case the tag and keep what comes
      before its first '-' or '_'. */
  function ToBackendCode(protoLang: string): (code: string)
    ensures |code| <= |protoLang|
    ensures code == Lower(protoLang)[..|code|]
    ensures forall i :: 0 <= i < |code| ==> code[i] != '-' && code[i] != '_'
    ensures |code| < |protoLang| ==> protoLang[|code|] in Separators
  {
    var lang := Lower(protoLang);
    var idx := Text.IndexAny(lang, Separators);
    if idx >= 0 then lang[..idx] else lang
  }

  /** A backend code is already in backend form. */
  lemma ToBackendCodeIdempotent(protoLang: string)
    ensures ToBackendCode(ToBackendCode(protoLang)) == ToBackendCode(protoLang)
  {
    var code := ToBackendCode(protoLang);
    assert Lower(code) == code;
    assert Text.IndexAny(code, Separators) == -1;
  }

  /** The examples documented on `ToBackendCode`. */
  lemma ToBackendCodeExamples()
    ensures ToBackendCode("EN") == "en"
    ensures ToBackendCode("fr-CA") == "fr"
    ensures ToBackendCode("en-US") == "en"
    ensures ToBackendCode("zh_Hant") == "zh"
  {
    BackendCodeExample("EN", "en", 2);
    BackendCodeExample("fr-CA", "fr-ca", 2);
    BackendCodeExample("en-US", "en-us", 2);
    BackendCodeExample("zh_Hant", "zh_hant", 2);
  }

  lemma BackendCodeExample(tag: string, lower: string, k: nat)
    requires |tag| == |lower| && k <= |lower|
    requires forall i :: 0 <= i < |tag| ==> LowerChar(tag[i]) == lower[i]
    requires forall i :: 0 <= i < k ==> lower[i] !in Separators
    requires k < |lower| ==> lower[k] in Separators
    ensures ToBackendCode(tag) == lower[..k]
  {
    assert Lower(tag) == lower;
    BackendCodeAt(tag, lower, k);
  }

  /** The code of a tag whose lower-cased form has its first separator at
      `k`, or none when `k` is its length. */
  lemma BackendCodeAt(tag: string, lower: string, k: nat)
    requires Lower(tag) == lower && k <= |lower|
    requires forall i :: 0 <= i < k ==> lower[i] !in Separators
    requires k < |lower| ==> lower[k] in Separators
    ensures ToBackendCode(tag) == lower[..k]
  {
    var code := ToBackendCode(tag);
    assert |code| == k;
  }
}

/** Language-code helpers of the test client (cmd/testclient/main.go). */
module TestClient {
  import opened Text
  import Translator

  /** The rune `toUpper` stores for one character: 'a'..'z' shifted down by
      32, everything else unchanged. */
  function UpperChar(c: char): (r: char)
    ensures 'a' <= c <= 'z' ==> r as int == c as int - 32
    ensures !('a' <= c <= 'z') ==> r == c
  {
    if 'a' <= c <= 'z' then (c as int - 32) as char else c
  }

  /** The `n` zero runes `make` leaves where nothing is stored. */
  function Zeros(n: nat): (z: string)
    ensures |z| == n && forall i :: 0 <= i < n ==> z[i] == '\0'
  {
    seq(n, _ => '\0')
  }

  /** What `toUpper` returns: the rune array has one slot per byte of `s`,
      and each character is stored at its byte offset, so a character of k
      bytes is followed by k - 1 zero runes. */
  function UpperRunes(s: string): (r: string)
    ensures |r| == Utf8Len(s)
  {
    if s == [] then []
    else UpperRunes(s[..|s| - 1]) + [UpperChar(s[|s| - 1])] + Zeros(RuneLen(s[|s| - 1]) - 1)
  }

  /** One more character of `s`: its upper-cased rune and padding follow
      the runes of the characters before it. */
  lemma UpperRunesStep(s: string, i: nat)
    requires i < |s|
    ensures UpperRunes(s[..i + 1]) == UpperRunes(s[..i]) + [UpperChar(s[i])] + Zeros(RuneLen(s[i]) - 1)
    ensures Utf8Len(s[..i + 1]) == Utf8Len(s[..i]) + RuneLen(s[i]) <= Utf8Len(s)
  {
    PrefixSnoc(s, i);
    UpperRunesSnoc(s[..i], s[i]);
    Utf8LenPrefix(s, i + 1);
  }

  lemma PrefixSnoc(s: string, i: nat)
    requires i < |s|
    ensures s[..i + 1] == s[..i] + [s[i]]
  {
  }

  lemma UpperRunesSnoc(p: string, c: char)
    ensures UpperRunes(p + [c]) == UpperRunes(p) + [UpperChar(c)] + Zeros(RuneLen(c) - 1)
    ensures Utf8Len(p + [c]) == Utf8Len(p) + RuneLen(c)
  {
    assert (p + [c])[..|p|] == p;
  }

  lemma Utf8LenPrefix(s: string, n: nat)
    requires n <= |s|
    ensures Utf8Len(s[..n]) <= Utf8Len(s)
  {
    Utf8LenConcat(s[..n], s[n..]);
    assert s[..n] + s[n..] == s;
  }

  /** Stores the rune of `c` at `offset` of a zero-filled tail of `a`. */
  method StoreRune(a: array<char>, offset: nat, c: char)
    requires offset + RuneLen(c) <= a.Length
    requires forall k :: offset <= k < a.Length ==> a[k] == '\0'
    modifies a
    ensures a[..offset + RuneLen(c)] == old(a[..offset]) + [UpperChar(c)] + Zeros(RuneLen(c) - 1)
    ensures forall k :: offset + RuneLen(c) <= k < a.Length ==> a[k] == '\0'
  {
    a[offset] := UpperChar(c);
    assert a[..offset + RuneLen(c)] == old(a[..offset]) + [UpperChar(c)] + Zeros(RuneLen(c) - 1);
  }

  /** `toUpper`: a rune array of `len(s)` slots filled in one pass over
      the characters of `s` and their byte offsets. */
  method ToUpper(s: string) returns (r: string)
    ensures r == UpperRunes(s)
  {
    var result := new char[Utf8Len(s)](_ => '\0');
    var i, offset := 0, 0;
    while i < |s|
      invariant 0 <= i <= |s|
      invariant offset == Utf8Len(s[..i]) <= result.Length
      invariant result[..offset] == UpperRunes(s[..i])
      invariant forall k :: offset <= k < result.Length ==> result[k] == '\0'
    {
      UpperRunesStep(s, i);
      StoreRune(result, offset, s[i]);
      offset := offset + RuneLen(s[i]);
      i := i + 1;
    }
    assert s[..|s|] == s;
    r := result[..];
  }

  /** `toProtoLangCode`: source codes upper-cased, target codes as given. */
  method ToProtoLangCode(lang: string, isSource: bool) returns (r: string)
    ensures isSource ==> r == UpperRunes(lang)
    ensures !isSource ==> r == lang
  {
    if isSource {
      r := ToUpper(lang);
    } else {
      r := lang;
    }
  }

  predicate Ascii(s: string) {
    forall i :: 0 <= i < |s| ==> s[i] < '\U{80}'
  }

  /** On ASCII text `toUpper` is the character-by-character upper-casing:
      same length and no lower-case letter left. */
  lemma {:induction false} UpperRunesAscii(s: string)
    requires Ascii(s)
    ensures |UpperRunes(s)| == |s|
    ensures forall i :: 0 <= i < |s| ==> UpperRunes(s)[i] == UpperChar(s[i])
    ensures forall i :: 0 <= i < |s| ==> !('a' <= UpperRunes(s)[i] <= 'z')
    ensures Ascii(UpperRunes(s))
  {
    if s != [] {
      var init := s[..|s| - 1];
      UpperRunesAscii(init);
      assert UpperRunes(s) == UpperRunes(init) + [UpperChar(s[|s| - 1])];
    }
  }

  /** On ASCII text a second pass of `toUpper` changes nothing. */
  lemma UpperRunesIdempotent(s: string)
    requires Ascii(s)
    ensures UpperRunes(UpperRunes(s)) == UpperRunes(s)
  {
    UpperRunesAscii(s);
    var u := UpperRunes(s);
    UpperRunesAscii(u);
    assert forall i :: 0 <= i < |u| ==> UpperChar(u[i]) == u[i];
  }

  /** Beyond ASCII the result is not a character-by-character map: a
      two-byte 'é' leaves a zero rune behind it. */
  lemma UpperRunesMultibyte()
    ensures UpperRunes("né") == "Né\0"
  {
    assert "né"[..1] == "n";
    assert ("né"[..1])[..0] == "";
    assert UpperRunes("n") == "N";
  }

  /** The upper-casing `toUpper` evidently means: one output character per
      input character, each upper-cased on its own. */
  function Upper(s: string): (r: string)
    ensures |r| == |s|
    ensures forall i :: 0 <= i < |s| ==> r[i] == UpperChar(s[i])
  {
    seq(|s|, i requires 0 <= i < |s| => UpperChar(s[i]))
  }

  /** The intended upper-casing keeps every character in place, adds no
      zero rune, leaves no lower-case ASCII letter, is idempotent, and is
      what `toUpper` computes on ASCII text. */
  lemma UpperIntended(s: string)
    ensures forall i :: 0 <= i < |s| ==> (Upper(s)[i] == '\0' <==> s[i] == '\0')
    ensures forall i :: 0 <= i < |s| ==> !('a' <= Upper(s)[i] <= 'z')
    ensures Upper(Upper(s)) == Upper(s)
    ensures Ascii(s) ==> UpperRunes(s) == Upper(s)
  {
    if Ascii(s) {
      UpperRunesAscii(s);
    }
  }

  lemma LowerOfUpper(c: char)
    requires 'a' <= c <= 'z'
    ensures 'A' <= UpperChar(c) <= 'Z' && Translator.LowerChar(UpperChar(c)) == c
  {
  }

  lemma LowerOfUpperRunes(code: string)
    requires forall i :: 0 <= i < |code| ==> 'a' <= code[i] <= 'z'
    ensures Translator.Lower(UpperRunes(code)) == code
  {
    assert Ascii(code);
    UpperRunesAscii(code);
    var u := UpperRunes(code);
    forall i | 0 <= i < |code|
      ensures Translator.Lower(u)[i] == code[i]
    {
      LowerOfUpper(code[i]);
    }
  }

  lemma UpperCodeWithoutSeparator(code: string)
    requires forall i :: 0 <= i < |code| ==> 'a' <= code[i] <= 'z'
    ensures forall k :: 0 <= k < |UpperRunes(code)| ==> UpperRunes(code)[k] !in Translator.Separators
  {
    assert Ascii(code);
    UpperRunesAscii(code);
    forall k | 0 <= k < |code|
      ensures UpperRunes(code)[k] !in Translator.Separators
    {
      LowerOfUpper(code[k]);
    }
  }

  /** What the test client sends as a source code, the service turns back
      into the backend code it started from. */
  lemma BackendCodeOfUpperCode(code: string)
    requires forall i :: 0 <= i < |code| ==> 'a' <= code[i] <= 'z'
    ensures Translator.ToBackendCode(UpperRunes(code)) == code
  {
    var p := UpperRunes(code);
    assert Translator.Lower(p) == code by {
      LowerOfUpperRunes(code);
    }
    assert forall k :: 0 <= k < |p| ==> p[k] !in Translator.Separators by {
      UpperCodeWithoutSeparator(code);
    }
    var r := Translator.ToBackendCode(p);
    assert |r| == |p|;
  }
}

/**
 * `urlBase64ToUint8Array` of wwwroot/main.js: turns the server's VAPID public
 * key, written in the URL- and filename-safe base64 alphabet of section 5 of
 * RFC 4648 without padding, into the bytes the browser's push manager wants.
 * It pads with '=' to a multiple of four characters, maps '-' to '+' and '_'
 * to '/' (the alphabet of section 4 of RFC 4648), decodes with the browser's
 * `atob`, and keeps one byte per decoded character.
 *
 * `atob` is a browser built-in: here it is the parameter `atob`, which
 * answers None where the browser would throw.
 */
module UrlBase64 {
  import opened Wrappers

  /** An element of a Uint8Array. */
  type uint8 = x: int | 0 <= x < 256

  /** How many UTF-16 code units a character takes: one below U+10000, a surrogate pair above. */
  function Utf16Width(c: char): nat
  {
    if (c as int) < 0x10000 then 1 else 2
  }

  /**
   * `s.length` in JavaScript: the number of UTF-16 code units. It is the
   * number of characters exactly when none lies above U+FFFF.
   */
  function Utf16Length(s: string): (n: nat)
    ensures |s| <= n <= 2 * |s|
    ensures n == |s| <==> forall i :: 0 <= i < |s| ==> (s[i] as int) < 0x10000
  {
    if s == [] then 0 else Utf16Width(s[0]) + Utf16Length(s[1..])
  }

  /** The UTF-16 length of a concatenation is the sum of the lengths. */
  lemma {:induction false} Utf16LengthAppend(a: string, b: string)
    ensures Utf16Length(a + b) == Utf16Length(a) + Utf16Length(b)
  {
    if a == [] {
      assert a + b == b;
    } else {
      assert (a + b)[1..] == a[1..] + b;
      Utf16LengthAppend(a[1..], b);
    }
  }

  /** Texts whose characters have the same widths, position by position, have the same UTF-16 length. */
  lemma {:induction false} Utf16LengthSameWidths(a: string, b: string)
    requires |a| == |b|
    requires forall i :: 0 <= i < |a| ==> Utf16Width(a[i]) == Utf16Width(b[i])
    ensures Utf16Length(a) == Utf16Length(b)
  {
    if a != [] {
      assert forall i :: 0 <= i < |a| - 1 ==> a[1..][i] == a[i + 1] && b[1..][i] == b[i + 1];
      Utf16LengthSameWidths(a[1..], b[1..]);
    }
  }

  /** `(4 - n % 4) % 4`: how many '=' complete the last group of four. */
  function PaddingLength(n: nat): (k: nat)
    ensures k <= 3
    ensures (n + k) % 4 == 0
    ensures k == 0 <==> n % 4 == 0
  {
    (4 - n % 4) % 4
  }

  /** `c.repeat(k)` for a one-character string `c`. */
  function Repeat(c: char, k: nat): (r: string)
    ensures |r| == k
    ensures forall i :: 0 <= i < k ==> r[i] == c
  {
    if k == 0 then [] else [c] + Repeat(c, k - 1)
  }

  /** `s.replace(/from/g, to)` for single characters. */
  function ReplaceAll(s: string, from: char, to: char): (r: string)
    ensures |r| == |s|
    ensures forall i :: 0 <= i < |s| ==> r[i] == (if s[i] == from then to else s[i])
  {
    if s == [] then [] else [if s[0] == from then to else s[0]] + ReplaceAll(s[1..], from, to)
  }

  /** The character of the standard alphabet that stands where `c` stood in the URL-safe one. */
  function StandardChar(c: char): char
  {
    if c == '-' then '+' else if c == '_' then '/' else c
  }

  /** A run of '=' is as many code units long as it has characters. */
  lemma PaddingLengthIsCount(padding: string)
    requires forall i :: 0 <= i < |padding| ==> padding[i] == '='
    ensures Utf16Length(padding) == |padding|
  {
    assert forall i :: 0 <= i < |padding| ==> (padding[i] as int) < 0x10000;
  }

  /**
   * The padded standard-alphabet text handed to `atob`: the input's
   * characters in place with '-' and '_' translated, then as many '=' as
   * make its JavaScript length (UTF-16 code units) a multiple of four.
   */
  function ToStandardBase64(s: string): (r: string)
    ensures |r| == |s| + PaddingLength(Utf16Length(s))
    ensures Utf16Length(r) == Utf16Length(s) + PaddingLength(Utf16Length(s))
    ensures Utf16Length(r) % 4 == 0
    ensures forall i :: 0 <= i < |s| ==> r[i] == StandardChar(s[i])
    ensures forall i :: |s| <= i < |r| ==> r[i] == '='
    ensures '-' !in r && '_' !in r
  {
    var padding := Repeat('=', PaddingLength(Utf16Length(s)));
    var r := ReplaceAll(ReplaceAll(s + padding, '-', '+'), '_', '/');
    StandardBase64Shape(s, padding, r);
    r
  }

  /** What the padded standard text looks like, character by character and in UTF-16 code units. */
  lemma StandardBase64Shape(s: string, padding: string, r: string)
    requires padding == Repeat('=', PaddingLength(Utf16Length(s)))
    requires r == ReplaceAll(ReplaceAll(s + padding, '-', '+'), '_', '/')
    ensures |r| == |s| + PaddingLength(Utf16Length(s))
    ensures Utf16Length(r) == Utf16Length(s) + PaddingLength(Utf16Length(s))
    ensures forall i :: 0 <= i < |s| ==> r[i] == StandardChar(s[i])
    ensures forall i :: |s| <= i < |r| ==> r[i] == '='
    ensures Utf16Length(r) % 4 == 0
    ensures '-' !in r && '_' !in r
  {
    ReplacingAfterPadding(s, padding);
    PaddedUtf16Length(s, padding);
    PaddedCharacters(s, padding);
    PaddedIsMultipleOfFour(Utf16Length(r), Utf16Length(s));
  }

  /** A length padded by `PaddingLength` is a multiple of four. */
  lemma PaddedIsMultipleOfFour(padded: int, n: nat)
    requires padded == n + PaddingLength(n)
    ensures padded % 4 == 0
  {
  }

  /** The translated input followed by its padding is as many code units long as the input and its padding. */
  lemma PaddedUtf16Length(s: string, padding: string)
    requires padding == Repeat('=', PaddingLength(Utf16Length(s)))
    ensures Utf16Length(Translated(s) + padding) == Utf16Length(s) + PaddingLength(Utf16Length(s))
  {
    TranslatedKeepsUtf16Length(s);
    PaddingLengthIsCount(padding);
    Utf16LengthAppend(Translated(s), padding);
  }

  /** The translated input followed by its padding holds no URL-safe-only character. */
  lemma PaddedCharacters(s: string, padding: string)
    requires forall i :: 0 <= i < |padding| ==> padding[i] == '='
    ensures forall i :: |s| <= i < |s| + |padding| ==> (Translated(s) + padding)[i] == '='
    ensures '-' !in Translated(s) + padding && '_' !in Translated(s) + padding
  {
    var r := Translated(s) + padding;
    assert forall i :: |s| <= i < |r| ==> r[i] == padding[i - |s|];
    assert forall i :: 0 <= i < |r| ==> r[i] != '-' && r[i] != '_';
  }

  /** Translating the padded text is translating the input and keeping the '=' as they are. */
  lemma ReplacingAfterPadding(s: string, padding: string)
    requires forall i :: 0 <= i < |padding| ==> padding[i] == '='
    ensures ReplaceAll(ReplaceAll(s + padding, '-', '+'), '_', '/') == Translated(s) + padding
  {
    var r := ReplaceAll(ReplaceAll(s + padding, '-', '+'), '_', '/');
    var t := Translated(s) + padding;
    assert |r| == |t|;
    forall i | 0 <= i < |r|
      ensures r[i] == t[i]
    {
      if i < |s| {
        assert (s + padding)[i] == s[i];
      } else {
        assert (s + padding)[i] == padding[i - |s|];
      }
    }
  }

  /** Translation keeps every character in the Basic Multilingual Plane or out of it, so the UTF-16 length is kept. */
  lemma TranslatedKeepsUtf16Length(s: string)
    ensures Utf16Length(Translated(s)) == Utf16Length(s)
  {
    Utf16LengthSameWidths(s, Translated(s));
  }

  /** A character above U+FFFF is two code units long, so one such character gets two '=', not three. */
  lemma AstralCharacterPadding()
    ensures ToStandardBase64("\U{1F600}") == "\U{1F600}=="
  {
    var s := "\U{1F600}";
    assert Utf16Length(s) == 2 by {
      assert s[1..] == [];
    }
  }

  /** The characters of the URL-safe alphabet of section 5 of RFC 4648. */
  predicate IsUrlSafeChar(c: char)
  {
    ('A' <= c <= 'Z') || ('a' <= c <= 'z') || ('0' <= c <= '9') || c == '-' || c == '_'
  }

  /** The characters of the standard alphabet of section 4 of RFC 4648. */
  predicate IsStandardChar(c: char)
  {
    ('A' <= c <= 'Z') || ('a' <= c <= 'z') || ('0' <= c <= '9') || c == '+' || c == '/'
  }

  /** The inverse direction: the URL-safe character for a standard one. */
  function UrlSafeChar(c: char): char
  {
    if c == '+' then '-' else if c == '/' then '_' else c
  }

  /** Drops the trailing '=' characters. */
  function StripPadding(r: string): (t: string)
    ensures |t| <= |r| && t == r[..|t|]
    ensures t == [] || t[|t| - 1] != '='
  {
    if r != [] && r[|r| - 1] == '=' then StripPadding(r[..|r| - 1]) else r
  }

  /** Back from padded standard base64 to unpadded base64url. */
  function ToUrlBase64(r: string): (s: string)
    ensures |s| == |StripPadding(r)|
    ensures forall i :: 0 <= i < |s| ==> s[i] == UrlSafeChar(StripPadding(r)[i])
  {
    var t := StripPadding(r);
    seq(|t|, i requires 0 <= i < |t| => UrlSafeChar(t[i]))
  }

  /** Stripping removes exactly the padding that was appended. */
  lemma {:induction false} StripAppendedPadding(t: string, k: nat)
    requires t == [] || t[|t| - 1] != '='
    ensures StripPadding(t + Repeat('=', k)) == t
  {
    if k > 0 {
      var padded := t + Repeat('=', k);
      assert padded[..|padded| - 1] == t + Repeat('=', k - 1);
      StripAppendedPadding(t, k - 1);
    } else {
      assert t + Repeat('=', 0) == t;
    }
  }

  /** The input with each character translated to the standard alphabet, before padding. */
  function Translated(s: string): (t: string)
    ensures |t| == |s|
    ensures forall i :: 0 <= i < |s| ==> t[i] == StandardChar(s[i])
  {
    seq(|s|, i requires 0 <= i < |s| => StandardChar(s[i]))
  }

  /** The text handed to `atob` is the translated input followed by the padding. */
  lemma {:induction false} StandardIsTranslatedPlusPadding(s: string)
    ensures ToStandardBase64(s) == Translated(s) + Repeat('=', PaddingLength(Utf16Length(s)))
  {
  }

  /** Padded text in the standard alphabet: at most three '=' after standard characters, a multiple of four long. */
  ghost predicate IsPaddedStandard(r: string)
  {
    var t := StripPadding(r);
    && |r| % 4 == 0
    && |r| - |t| <= 3
    && forall i :: 0 <= i < |t| ==> IsStandardChar(t[i])
  }

  /** Stripping the padding from the converted URL-safe text leaves the translated input. */
  lemma StripStandardBase64(s: string)
    requires forall i :: 0 <= i < |s| ==> IsUrlSafeChar(s[i])
    ensures StripPadding(ToStandardBase64(s)) == Translated(s)
  {
    var t := Translated(s);
    StandardIsTranslatedPlusPadding(s);
    assert t == [] || t[|t| - 1] != '=' by {
      if t != [] { assert IsUrlSafeChar(s[|s| - 1]); }
    }
    StripAppendedPadding(t, PaddingLength(Utf16Length(s)));
  }

  /** Unpadded URL-safe text becomes padded standard text. */
  lemma StandardAlphabetOnly(s: string)
    requires forall i :: 0 <= i < |s| ==> IsUrlSafeChar(s[i])
    ensures IsPaddedStandard(ToStandardBase64(s))
  {
    var t := Translated(s);
    StripStandardBase64(s);
    forall i | 0 <= i < |t| ensures IsStandardChar(t[i]) {
      assert IsUrlSafeChar(s[i]);
    }
    assert Utf16Length(s) == |s| by {
      assert forall i :: 0 <= i < |s| ==> (s[i] as int) < 0x10000 by {
        forall i | 0 <= i < |s| ensures (s[i] as int) < 0x10000 {
          assert IsUrlSafeChar(s[i]);
        }
      }
    }
  }

  /** For unpadded base64url text the conversion loses nothing: converting back gives the input. */
  lemma RoundTrip(s: string)
    requires forall i :: 0 <= i < |s| ==> IsUrlSafeChar(s[i])
    ensures ToUrlBase64(ToStandardBase64(s)) == s
  {
    var t := Translated(s);
    StripStandardBase64(s);
    TranslationUndone(s);
    var back := ToUrlBase64(ToStandardBase64(s));
    assert |back| == |t| == |s|;
    assert forall i :: 0 <= i < |s| ==> back[i] == UrlSafeChar(t[i]) == s[i];
  }

  /** Each URL-safe character comes back from its standard counterpart. */
  lemma TranslationUndone(s: string)
    requires forall i :: 0 <= i < |s| ==> IsUrlSafeChar(s[i])
    ensures forall i :: 0 <= i < |s| ==> UrlSafeChar(Translated(s)[i]) == s[i]
  {
    forall i | 0 <= i < |s| ensures UrlSafeChar(Translated(s)[i]) == s[i] {
      assert IsUrlSafeChar(s[i]);
    }
  }

  /**
   * `char.charCodeAt(0)`: the first UTF-16 code unit of the character, which
   * is the character itself below U+10000 and its high surrogate above.
   */
  function FirstCodeUnit(c: char): (u: int)
    ensures 0 <= u < 0x10000
    ensures (c as int) < 0x10000 ==> u == c as int
  {
    if (c as int) < 0x10000 then c as int else 0xD800 + ((c as int) - 0x10000) / 0x400
  }

  /**
   * `Uint8Array.from([...raw].map(char => char.charCodeAt(0)))`: one element
   * per character, the code unit reduced modulo 256 as a Uint8Array stores it.
   */
  function CharCodes(raw: string): (bytes: seq<uint8>)
    ensures |bytes| == |raw|
  {
    seq(|raw|, i requires 0 <= i < |raw| => FirstCodeUnit(raw[i]) % 256)
  }

  /** What `atob` returns: a string of characters U+0000 to U+00FF, one per byte. */
  ghost predicate IsBinaryString(raw: string)
  {
    forall i :: 0 <= i < |raw| ==> (raw[i] as int) < 256
  }

  /** The binary string holding the given bytes. */
  function BinaryString(bytes: seq<uint8>): (raw: string)
    ensures |raw| == |bytes| && IsBinaryString(raw)
  {
    seq(|bytes|, i requires 0 <= i < |bytes| => bytes[i] as char)
  }

  /** On a binary string each byte is its character's code, so no information is lost either way. */
  lemma CharCodesOfBinaryString(raw: string)
    requires IsBinaryString(raw)
    ensures forall i :: 0 <= i < |raw| ==> CharCodes(raw)[i] == raw[i] as int
    ensures BinaryString(CharCodes(raw)) == raw
  {
  }

  /** Encoding bytes as a binary string and reading the codes back gives the bytes. */
  lemma CharCodesInvertsBinaryString(bytes: seq<uint8>)
    ensures CharCodes(BinaryString(bytes)) == bytes
  {
  }

  /**
   * The whole conversion. It fails exactly when `atob` rejects the padded
   * text, and otherwise yields one byte per decoded character, the bytes
   * spelling out the decoded binary string.
   */
  function UrlBase64ToUint8Array(base64String: string, atob: string -> Option<string>): (r: Option<seq<uint8>>)
    ensures r.None? <==> atob(ToStandardBase64(base64String)).None?
    ensures r.Some? ==> |r.value| == |atob(ToStandardBase64(base64String)).value|
    ensures r.Some? && IsBinaryString(atob(ToStandardBase64(base64String)).value) ==>
              BinaryString(r.value) == atob(ToStandardBase64(base64String)).value
  {
    match atob(ToStandardBase64(base64String))
    case None => None
    case Some(rawData) =>
      var bytes := CharCodes(rawData);
      assert IsBinaryString(rawData) ==> BinaryString(bytes) == rawData by {
        if IsBinaryString(rawData) { CharCodesOfBinaryString(rawData); }
      }
      Some(bytes)
  }
}

/**
 The transport codec of the worker. Five characters that are structural in a
 URL path or in the template language (backslash, slash, `<`, `>` and `.`) travel
 as five rare code points, the markers. `Encode` turns plain characters into
 markers and `Clean` turns markers back into plain characters. Each is written,
 as in the source, as a chain of five single-character replacements; the lemmas
 show that each chain is a pointwise character map and derive the round trips.
 */
module Codec {

  const Backslash: char := '\\'
  const Slash: char := '/'
  const Less: char := '<'
  const Greater: char := '>'
  const Dot: char := '.'

  /** LATIN CAPITAL LETTER AA, standing for a backslash. */
  const MarkerBackslash: char := '\U{A732}'
  /** WON SIGN, standing for a slash. */
  const MarkerSlash: char := '\U{20A9}'
  /** LATIN SMALL LETTER AA, standing for `<`. */
  const MarkerLess: char := '\U{A733}'
  /** LATIN SMALL LETTER AO, standing for `>`. */
  const MarkerGreater: char := '\U{A735}'
  /** LATIN CAPITAL LETTER AU, standing for `.`. */
  const MarkerDot: char := '\U{A736}'

  predicate IsPlain(c: char) {
    c == Backslash || c == Slash || c == Less || c == Greater || c == Dot
  }

  predicate IsMarker(c: char) {
    c == MarkerBackslash || c == MarkerSlash || c == MarkerLess || c == MarkerGreater || c == MarkerDot
  }

  predicate NoPlain(t: string) {
    forall i :: 0 <= i < |t| ==> !IsPlain(t[i])
  }

  predicate NoMarkers(t: string) {
    forall i :: 0 <= i < |t| ==> !IsMarker(t[i])
  }

  /** The encoding table, one character at a time. */
  function EncodeChar(c: char): char {
    if c == Backslash then MarkerBackslash
    else if c == Slash then MarkerSlash
    else if c == Less then MarkerLess
    else if c == Greater then MarkerGreater
    else if c == Dot then MarkerDot
    else c
  }

  /** The decoding table, one character at a time. */
  function DecodeChar(c: char): char {
    if c == MarkerBackslash then Backslash
    else if c == MarkerSlash then Slash
    else if c == MarkerLess then Less
    else if c == MarkerGreater then Greater
    else if c == MarkerDot then Dot
    else c
  }

  /** Applies `f` to every character of `t`: the reference the replacement chains are measured against. */
  function MapChars(t: string, f: char -> char): (r: string)
    ensures |r| == |t|
  {
    seq(|t|, i requires 0 <= i < |t| => f(t[i]))
  }

  /**
   Python's `str.replace(pattern, replacement)` for a one-character pattern and a
   one-character replacement, scanning left to right.
   */
  function ReplaceChar(s: string, pattern: char, replacement: char): string
  {
    if |s| == 0 then []
    else [if s[0] == pattern then replacement else s[0]] + ReplaceChar(s[1..], pattern, replacement)
  }

  /** `clean_tagscript`: the five markers back to the five plain characters, one replacement after another. */
  function Clean(t: string): string
  {
    var s1 := ReplaceChar(t, MarkerBackslash, Backslash);
    var s2 := ReplaceChar(s1, MarkerSlash, Slash);
    var s3 := ReplaceChar(s2, MarkerLess, Less);
    var s4 := ReplaceChar(s3, MarkerGreater, Greater);
    ReplaceChar(s4, MarkerDot, Dot)
  }

  /** `encode_tagscript`: the five plain characters to the five markers, one replacement after another. */
  function Encode(t: string): string
  {
    var s1 := ReplaceChar(t, Backslash, MarkerBackslash);
    var s2 := ReplaceChar(s1, Slash, MarkerSlash);
    var s3 := ReplaceChar(s2, Less, MarkerLess);
    var s4 := ReplaceChar(s3, Greater, MarkerGreater);
    ReplaceChar(s4, Dot, MarkerDot)
  }

  /**
   A one-character replacement keeps the length, puts the replacement wherever
   the pattern was and keeps every other character in place.
   */
  lemma {:induction false} ReplaceCharIsPointwise(s: string, pattern: char, replacement: char)
    ensures |ReplaceChar(s, pattern, replacement)| == |s|
    ensures forall i :: 0 <= i < |s| ==>
      ReplaceChar(s, pattern, replacement)[i] == (if s[i] == pattern then replacement else s[i])
  {
    if |s| > 0 {
      ReplaceCharIsPointwise(s[1..], pattern, replacement);
    }
  }

  /**
   The chain in `clean_tagscript` is the pointwise decoding map. No marker is a
   plain character, so a later replacement never touches what an earlier one wrote.
   */
  lemma CleanIsPointwise(t: string)
    ensures Clean(t) == MapChars(t, DecodeChar)
  {
    var s1 := ReplaceChar(t, MarkerBackslash, Backslash);
    var s2 := ReplaceChar(s1, MarkerSlash, Slash);
    var s3 := ReplaceChar(s2, MarkerLess, Less);
    var s4 := ReplaceChar(s3, MarkerGreater, Greater);
    ReplaceCharIsPointwise(t, MarkerBackslash, Backslash);
    ReplaceCharIsPointwise(s1, MarkerSlash, Slash);
    ReplaceCharIsPointwise(s2, MarkerLess, Less);
    ReplaceCharIsPointwise(s3, MarkerGreater, Greater);
    ReplaceCharIsPointwise(s4, MarkerDot, Dot);
    assert forall i :: 0 <= i < |t| ==> Clean(t)[i] == DecodeChar(t[i]);
  }

  /**
   The chain in `encode_tagscript` is the pointwise encoding map. No plain
   character is a marker, so a later replacement never touches what an earlier one wrote.
   */
  lemma EncodeIsPointwise(t: string)
    ensures Encode(t) == MapChars(t, EncodeChar)
  {
    var s1 := ReplaceChar(t, Backslash, MarkerBackslash);
    var s2 := ReplaceChar(s1, Slash, MarkerSlash);
    var s3 := ReplaceChar(s2, Less, MarkerLess);
    var s4 := ReplaceChar(s3, Greater, MarkerGreater);
    ReplaceCharIsPointwise(t, Backslash, MarkerBackslash);
    ReplaceCharIsPointwise(s1, Slash, MarkerSlash);
    ReplaceCharIsPointwise(s2, Less, MarkerLess);
    ReplaceCharIsPointwise(s3, Greater, MarkerGreater);
    ReplaceCharIsPointwise(s4, Dot, MarkerDot);
    assert forall i :: 0 <= i < |t| ==> Encode(t)[i] == EncodeChar(t[i]);
  }

  // Character-level facts behind the string-level lemmas.

  lemma EncodeCharFacts(c: char)
    ensures !IsPlain(EncodeChar(c))
    ensures IsMarker(EncodeChar(c)) <==> IsPlain(c) || IsMarker(c)
    ensures !IsPlain(c) ==> EncodeChar(c) == c
    ensures !IsMarker(c) ==> DecodeChar(EncodeChar(c)) == c
  {
  }

  lemma DecodeCharFacts(c: char)
    ensures !IsMarker(DecodeChar(c))
    ensures IsPlain(DecodeChar(c)) <==> IsPlain(c) || IsMarker(c)
    ensures !IsMarker(c) ==> DecodeChar(c) == c
    ensures !IsPlain(c) ==> EncodeChar(DecodeChar(c)) == c
  {
  }

  /** Encoding keeps the length, removes every plain character and touches nothing else. */
  lemma EncodeShape(t: string)
    ensures |Encode(t)| == |t|
    ensures NoPlain(Encode(t))
    ensures forall i :: 0 <= i < |t| && !IsPlain(t[i]) ==> Encode(t)[i] == t[i]
    ensures forall i :: 0 <= i < |t| && IsPlain(t[i]) ==> IsMarker(Encode(t)[i])
  {
    EncodeIsPointwise(t);
    forall i | 0 <= i < |t|
      ensures !IsPlain(Encode(t)[i])
      ensures !IsPlain(t[i]) ==> Encode(t)[i] == t[i]
      ensures IsPlain(t[i]) ==> IsMarker(Encode(t)[i])
    {
      EncodeCharFacts(t[i]);
    }
  }

  /** Cleaning keeps the length, removes every marker and touches nothing else. */
  lemma CleanShape(t: string)
    ensures |Clean(t)| == |t|
    ensures NoMarkers(Clean(t))
    ensures forall i :: 0 <= i < |t| && !IsMarker(t[i]) ==> Clean(t)[i] == t[i]
    ensures forall i :: 0 <= i < |t| && IsMarker(t[i]) ==> IsPlain(Clean(t)[i])
  {
    CleanIsPointwise(t);
    forall i | 0 <= i < |t|
      ensures !IsMarker(Clean(t)[i])
      ensures !IsMarker(t[i]) ==> Clean(t)[i] == t[i]
      ensures IsMarker(t[i]) ==> IsPlain(Clean(t)[i])
    {
      DecodeCharFacts(t[i]);
    }
  }

  /** Text without plain characters is left alone by `Encode`; this is what makes it idempotent. */
  lemma EncodeFixesPlainFree(t: string)
    ensures Encode(t) == t <==> NoPlain(t)
  {
    EncodeShape(t);
    if NoPlain(t) {
      assert forall i :: 0 <= i < |t| ==> Encode(t)[i] == t[i];
    }
  }

  /** Text without markers is left alone by `Clean`; this is what makes it idempotent. */
  lemma CleanFixesMarkerFree(t: string)
    ensures Clean(t) == t <==> NoMarkers(t)
  {
    CleanShape(t);
    if NoMarkers(t) {
      assert forall i :: 0 <= i < |t| ==> Clean(t)[i] == t[i];
    }
  }

  lemma EncodeIdempotent(t: string)
    ensures Encode(Encode(t)) == Encode(t)
  {
    EncodeShape(t);
    EncodeFixesPlainFree(Encode(t));
  }

  lemma CleanIdempotent(t: string)
    ensures Clean(Clean(t)) == Clean(t)
  {
    CleanShape(t);
    CleanFixesMarkerFree(Clean(t));
  }

  /**
   Cleaning undoes encoding exactly on marker-free text. A marker in the input
   comes back as a plain character, so the condition cannot be dropped.
   */
  lemma CleanEncodeRoundTrip(t: string)
    ensures Clean(Encode(t)) == t <==> NoMarkers(t)
  {
    EncodeIsPointwise(t);
    CleanIsPointwise(Encode(t));
    var r := Clean(Encode(t));
    assert |r| == |t|;
    if NoMarkers(t) {
      forall i | 0 <= i < |t|
        ensures r[i] == t[i]
      {
        EncodeCharFacts(t[i]);
      }
    } else {
      var i :| 0 <= i < |t| && IsMarker(t[i]);
      EncodeCharFacts(t[i]);
      DecodeCharFacts(t[i]);
      assert r[i] != t[i];
    }
  }

  /**
   Encoding undoes cleaning exactly on text without plain characters. Being
   marker-free is not enough: a plain character comes back as its marker.
   */
  lemma EncodeCleanRoundTrip(t: string)
    ensures Encode(Clean(t)) == t <==> NoPlain(t)
  {
    CleanIsPointwise(t);
    EncodeIsPointwise(Clean(t));
    var r := Encode(Clean(t));
    assert |r| == |t|;
    if NoPlain(t) {
      forall i | 0 <= i < |t|
        ensures r[i] == t[i]
      {
        DecodeCharFacts(t[i]);
      }
    } else {
      var i :| 0 <= i < |t| && IsPlain(t[i]);
      DecodeCharFacts(t[i]);
      EncodeCharFacts(t[i]);
      assert r[i] != t[i];
    }
  }

  /** `"a/b"` has no marker, yet cleaning and then encoding it does not give it back. */
  lemma EncodeCleanNeedsPlainFree()
    ensures NoMarkers("a/b") && Encode(Clean("a/b")) != "a/b"
  {
    EncodeCleanRoundTrip("a/b");
    assert IsPlain("a/b"[1]);
  }

  /** Two marker-free texts with the same encoding are the same text. */
  lemma EncodeInjective(t: string, u: string)
    requires NoMarkers(t) && NoMarkers(u)
    ensures Encode(t) == Encode(u) <==> t == u
  {
    if Encode(t) == Encode(u) {
      CleanEncodeRoundTrip(t);
      CleanEncodeRoundTrip(u);
    }
  }
}

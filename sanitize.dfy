/**
 * The response sanitiser `resp_stripper` (identical in both clients) and the
 * `str` methods it is built from: `lstrip`, `strip` and `replace`.
 */
module Sanitize {
  import opened Utf8

  /** The characters `resp_stripper` hands to `lstrip` and `strip`. */
  const Controls: string := "\n\t\r"

  predicate IsControl(c: char)
  {
    c in Controls
  }

  /** `s.lstrip(chars)` */
  function LStrip(s: string, chars: string): string
  {
    if |s| > 0 && s[0] in chars then LStrip(s[1..], chars) else s
  }

  /** `s.rstrip(chars)` */
  function RStrip(s: string, chars: string): string
  {
    if |s| > 0 && s[|s| - 1] in chars then RStrip(s[..|s| - 1], chars) else s
  }

  /** `s.strip(chars)` */
  function Strip(s: string, chars: string): string
  {
    RStrip(LStrip(s, chars), chars)
  }

  /** `s.replace(target, "", -1)` for a one-character `target`. */
  function RemoveAll(s: string, target: char): string
  {
    if s == [] then [] else (if s[0] == target then [] else [s[0]]) + RemoveAll(s[1..], target)
  }

  /** The body of the loop of `resp_stripper`, applied to one token. */
  function StripToken(token: string): string
  {
    Strip(RemoveAll(LStrip(token, Controls), '\n'), Controls)
  }

  /** The input with every line feed, tab and carriage return deleted, the rest kept in order. */
  function Stripped(s: string): string
  {
    if s == [] then []
    else Stripped(s[..|s| - 1]) + (if IsControl(s[|s| - 1]) then [] else [s[|s| - 1]])
  }

  /** Iterating over a `str` yields one-character tokens; on each, the loop body is a filter. */
  lemma TokenIsFiltered(c: char)
    ensures StripToken([c]) == if IsControl(c) then [] else [c]
  {
    var t := [c];
    assert t[1..] == [];
    if IsControl(c) {
      assert LStrip(t, Controls) == [];
    } else {
      assert LStrip(t, Controls) == t;
      assert RemoveAll(t, '\n') == t;
      assert t[..0] == [];
      assert RStrip(t, Controls) == t;
    }
  }

  /** `resp_stripper`: iterates over the code points and concatenates the stripped tokens. */
  method RespStripper(response: string) returns (modelResp: string)
    ensures modelResp == Stripped(response)
  {
    modelResp := "";
    for i := 0 to |response|
      invariant modelResp == Stripped(response[..i])
    {
      var token := [response[i]];
      token := LStrip(token, Controls);
      token := RemoveAll(token, '\n');
      token := Strip(token, Controls);
      TokenIsFiltered(response[i]);
      assert response[..i + 1][..i] == response[..i];
      modelResp := modelResp + token;
    }
    assert response[..|response|] == response;
  }

  /** Stripping distributes over concatenation: the order of the kept characters is preserved. */
  lemma {:induction false} StrippedAppend(a: string, b: string)
    ensures Stripped(a + b) == Stripped(a) + Stripped(b)
  {
    if b == [] {
      assert a + b == a;
    } else {
      var b' := b[..|b| - 1];
      assert (a + b)[..|a + b| - 1] == a + b';
      assert (a + b)[|a + b| - 1] == b[|b| - 1];
      StrippedAppend(a, b');
    }
  }

  /** Exactly the non-control characters of the input survive, and only they. */
  lemma {:induction false} StrippedMembers(s: string)
    ensures forall c :: c in Stripped(s) <==> c in s && !IsControl(c)
    ensures |Stripped(s)| <= |s|
  {
    if s != [] {
      var s' := s[..|s| - 1];
      StrippedMembers(s');
      assert s == s' + [s[|s| - 1]];
    }
  }

  /** A string without control characters is left as it is. */
  lemma {:induction false} StrippedClean(s: string)
    requires forall i :: 0 <= i < |s| ==> !IsControl(s[i])
    ensures Stripped(s) == s
  {
    if s != [] {
      StrippedClean(s[..|s| - 1]);
    }
  }

  /** `resp_stripper` is idempotent. */
  lemma StrippedIdempotent(s: string)
    ensures Stripped(Stripped(s)) == Stripped(s)
  {
    var r := Stripped(s);
    StrippedMembers(s);
    forall i | 0 <= i < |r|
      ensures !IsControl(r[i])
    {
      assert r[i] in r;
    }
    StrippedClean(r);
  }

  /** Stripping never lengthens the text, in characters or in UTF-8 bytes. */
  lemma {:induction false} StrippedShorter(s: string)
    ensures |Stripped(s)| <= |s|
    ensures ByteLength(Stripped(s)) <= ByteLength(s)
  {
    if s != [] {
      var s' := s[..|s| - 1];
      var last := [s[|s| - 1]];
      assert s == s' + last;
      StrippedShorter(s');
      ByteLengthAppend(s', last);
      ByteLengthAppend(Stripped(s'), if IsControl(s[|s| - 1]) then [] else last);
    }
  }

  /** `lstrip` removes a prefix made only of `chars`, and stops at a character outside `chars`. */
  lemma {:induction false} LStripShape(s: string, chars: string)
    ensures |LStrip(s, chars)| <= |s|
    ensures LStrip(s, chars) == s[|s| - |LStrip(s, chars)|..]
    ensures forall i :: 0 <= i < |s| - |LStrip(s, chars)| ==> s[i] in chars
    ensures |LStrip(s, chars)| > 0 ==> LStrip(s, chars)[0] !in chars
  {
    if |s| > 0 && s[0] in chars {
      LStripShape(s[1..], chars);
    }
  }

  /** `rstrip` removes a suffix made only of `chars`, and stops at a character outside `chars`. */
  lemma {:induction false} RStripShape(s: string, chars: string)
    ensures |RStrip(s, chars)| <= |s|
    ensures RStrip(s, chars) == s[..|RStrip(s, chars)|]
    ensures forall i :: |RStrip(s, chars)| <= i < |s| ==> s[i] in chars
    ensures |RStrip(s, chars)| > 0 ==> RStrip(s, chars)[|RStrip(s, chars)| - 1] !in chars
  {
    if |s| > 0 && s[|s| - 1] in chars {
      RStripShape(s[..|s| - 1], chars);
    }
  }

  /** How many characters `lstrip` removes from the front of `s`. */
  function Lead(s: string, chars: string): int
  {
    |s| - |LStrip(s, chars)|
  }

  /**
   * `strip` keeps one contiguous run of `s`: everything before and after it is in
   * `chars`, and the run neither starts nor ends with a character of `chars`.
   */
  lemma StripShape(s: string, chars: string)
    ensures 0 <= Lead(s, chars) && Lead(s, chars) + |Strip(s, chars)| <= |s|
    ensures Strip(s, chars) == s[Lead(s, chars)..Lead(s, chars) + |Strip(s, chars)|]
    ensures forall k :: 0 <= k < Lead(s, chars) ==> s[k] in chars
    ensures forall k :: Lead(s, chars) + |Strip(s, chars)| <= k < |s| ==> s[k] in chars
    ensures |Strip(s, chars)| > 0 ==> Strip(s, chars)[0] !in chars
    ensures |Strip(s, chars)| > 0 ==> Strip(s, chars)[|Strip(s, chars)| - 1] !in chars
  {
    var l := LStrip(s, chars);
    var r := Strip(s, chars);
    LStripShape(s, chars);
    RStripShape(l, chars);
    var i := |s| - |l|;
    assert r == l[..|r|];
    assert r == s[i..i + |r|];
    forall k | i + |r| <= k < |s|
      ensures s[k] in chars
    {
      assert s[k] == l[k - i];
    }
  }

  /** `strip` leaves a string without control characters as it is. */
  lemma StripClean(s: string)
    requires forall i :: 0 <= i < |s| ==> !IsControl(s[i])
    ensures Strip(s, Controls) == s
  {
    LStripShape(s, Controls);
    RStripShape(LStrip(s, Controls), Controls);
  }
}

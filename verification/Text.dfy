/** Email and identifier normalization, as written in SQL and as written in Python.

    SQL `btrim(x)` removes plain spaces only; Python `str.strip()` removes every white-space
    character. `lower` is modelled on ASCII letters and leaves every other character alone. */
module Text {

  /** Which trimming routine is meant: SQL `btrim` or Python `str.strip`. */
  datatype Trimming = Btrim | PyStrip

  predicate Blank(k: Trimming, c: char)
  {
    match k
    case Btrim => c == ' '
    case PyStrip =>
      || c == ' ' || '\t' <= c <= '\r' || '\U{1c}' <= c <= '\U{1f}'
      || c == '\U{85}' || c == '\U{a0}' || c == '\U{1680}' || '\U{2000}' <= c <= '\U{200a}'
      || c == '\U{2028}' || c == '\U{2029}' || c == '\U{202f}' || c == '\U{205f}' || c == '\U{3000}'
  }

  function TrimLeft(k: Trimming, s: string): string
  {
    if s != "" && Blank(k, s[0]) then TrimLeft(k, s[1..]) else s
  }

  function TrimRight(k: Trimming, s: string): string
  {
    if s != "" && Blank(k, s[|s| - 1]) then TrimRight(k, s[..|s| - 1]) else s
  }

  function Trim(k: Trimming, s: string): string
  {
    TrimRight(k, TrimLeft(k, s))
  }

  /** No character of the kind `k` removes stands at either border. */
  predicate Bare(k: Trimming, s: string)
  {
    s != "" ==> !Blank(k, s[0]) && !Blank(k, s[|s| - 1])
  }

  function LowerChar(c: char): char
  {
    if 'A' <= c <= 'Z' then (c as int + 32) as char else c
  }

  function Lower(s: string): string
  {
    seq(|s|, i requires 0 <= i < |s| => LowerChar(s[i]))
  }

  /** `app.normalize_email` and the generated `email_normalized` columns. */
  function Normalize(s: string): string
  {
    Lower(Trim(Btrim, s))
  }

  /** `normalize_email` of backend/identity/service.py. */
  function PyNormalize(s: string): string
  {
    Lower(Trim(PyStrip, s))
  }

  lemma {:induction false} TrimLeftFacts(k: Trimming, s: string)
    ensures |TrimLeft(k, s)| <= |s|
    ensures TrimLeft(k, s) == s[|s| - |TrimLeft(k, s)|..]
    ensures TrimLeft(k, s) != "" ==> !Blank(k, TrimLeft(k, s)[0])
  {
    if s != "" && Blank(k, s[0]) {
      TrimLeftFacts(k, s[1..]);
    }
  }

  lemma {:induction false} TrimRightFacts(k: Trimming, s: string)
    ensures |TrimRight(k, s)| <= |s|
    ensures TrimRight(k, s) == s[..|TrimRight(k, s)|]
    ensures TrimRight(k, s) != "" ==> !Blank(k, TrimRight(k, s)[|TrimRight(k, s)| - 1])
  {
    if s != "" && Blank(k, s[|s| - 1]) {
      TrimRightFacts(k, s[..|s| - 1]);
    }
  }

  /** What is left after trimming has clean borders, and a string with clean borders is left alone. */
  lemma TrimIsBare(k: Trimming, s: string)
    ensures Bare(k, Trim(k, s))
    ensures |Trim(k, s)| <= |s|
    ensures |Trim(k, s)| == |s| ==> Trim(k, s) == s
  {
    TrimLeftFacts(k, s);
    TrimRightFacts(k, TrimLeft(k, s));
  }

  lemma TrimOfBare(k: Trimming, s: string)
    requires Bare(k, s)
    ensures Trim(k, s) == s
  {
  }

  /** Python's `strip` subsumes SQL's `btrim`: trimming spaces first changes nothing. */
  lemma {:induction false} StripAfterBtrim(s: string)
    ensures Trim(PyStrip, Trim(Btrim, s)) == Trim(PyStrip, s)
    decreases |s|
  {
    if s != "" && s[0] == ' ' {
      StripAfterBtrim(s[1..]);
    } else if s != "" && s[|s| - 1] == ' ' {
      var t := s[..|s| - 1];
      StripAfterBtrim(t);
      assert TrimLeft(Btrim, s) == s;
      TrimLeftOfPrefix(s);
      assert TrimLeft(Btrim, t) == t;
    } else {
      TrimOfBare(Btrim, s);
    }
  }

  /** Dropping a trailing space before the left trim does not change the two-sided Python trim. */
  lemma {:induction false} TrimLeftOfPrefix(s: string)
    requires s != "" && s[|s| - 1] == ' '
    ensures Trim(PyStrip, s[..|s| - 1]) == Trim(PyStrip, s)
  {
    var t := s[..|s| - 1];
    if t == "" {
      assert s[1..] == "";
      assert TrimLeft(PyStrip, s) == TrimLeft(PyStrip, s[1..]) == "";
    } else if Blank(PyStrip, s[0]) {
      assert s[1..][..|s[1..]| - 1] == t[1..];
      TrimLeftOfPrefix(s[1..]);
    } else {
      assert TrimRight(PyStrip, s) == TrimRight(PyStrip, t);
    }
  }

  // ---- What trimming and lowering do --------------------------------------------------

  /** The characters the two trims remove, by code point: U+0020 alone, and what `str.isspace` accepts. */
  lemma BlankCodes(c: char)
    ensures Blank(Btrim, c) <==> c as int == 0x20
    ensures Blank(PyStrip, c) <==>
              c as int in {0x09, 0x0a, 0x0b, 0x0c, 0x0d, 0x1c, 0x1d, 0x1e, 0x1f, 0x20, 0x85, 0xa0, 0x1680,
                           0x2000, 0x2001, 0x2002, 0x2003, 0x2004, 0x2005, 0x2006, 0x2007, 0x2008, 0x2009, 0x200a,
                           0x2028, 0x2029, 0x202f, 0x205f, 0x3000}
  {
  }

  ghost predicate AllBlank(k: Trimming, s: string)
  {
    forall i :: 0 <= i < |s| ==> Blank(k, s[i])
  }

  lemma {:induction false} LeftIsBlank(k: Trimming, s: string)
    ensures |TrimLeft(k, s)| <= |s| && AllBlank(k, s[..|s| - |TrimLeft(k, s)|])
  {
    if s != "" && Blank(k, s[0]) {
      LeftIsBlank(k, s[1..]);
      forall i | 0 <= i < |s| - |TrimLeft(k, s)| ensures Blank(k, s[i]) {
        if i > 0 {
          assert s[i] == s[1..][..|s[1..]| - |TrimLeft(k, s[1..])|][i - 1];
        }
      }
    }
  }

  lemma {:induction false} RightIsBlank(k: Trimming, s: string)
    ensures |TrimRight(k, s)| <= |s| && AllBlank(k, s[|TrimRight(k, s)|..])
  {
    if s != "" && Blank(k, s[|s| - 1]) {
      var t := s[..|s| - 1];
      RightIsBlank(k, t);
      forall i | |TrimRight(k, s)| <= i < |s| ensures Blank(k, s[i]) {
        if i < |t| {
          assert t[i] == t[|TrimRight(k, t)|..][i - |TrimRight(k, t)|];
        }
      }
    }
  }

  /** Trimming takes blanks off both ends, all of them, and nothing else. */
  lemma TrimTakesBlanks(k: Trimming, s: string) returns (left: string, right: string)
    ensures s == left + Trim(k, s) + right
    ensures AllBlank(k, left) && AllBlank(k, right) && Bare(k, Trim(k, s))
  {
    TrimIsBare(k, s);
    TrimLeftFacts(k, s);
    TrimRightFacts(k, TrimLeft(k, s));
    LeftIsBlank(k, s);
    RightIsBlank(k, TrimLeft(k, s));
    left, right := s[..|s| - |TrimLeft(k, s)|], TrimLeft(k, s)[|Trim(k, s)|..];
  }

  /** The two cases of one ASCII letter. */
  predicate TwoCases(c: char, d: char)
  {
    || ('A' <= c <= 'Z' && d as int == c as int + 32)
    || ('A' <= d <= 'Z' && c as int == d as int + 32)
  }

  /** Equal but for the case of ASCII letters. */
  ghost predicate SameLetters(s: string, t: string)
  {
    |s| == |t| && forall i :: 0 <= i < |s| ==> s[i] == t[i] || TwoCases(s[i], t[i])
  }

  ghost predicate NoCapitals(s: string)
  {
    forall i :: 0 <= i < |s| ==> !('A' <= s[i] <= 'Z')
  }

  lemma LowerCharIff(c: char, d: char)
    ensures LowerChar(c) == LowerChar(d) <==> c == d || TwoCases(c, d)
    ensures !('A' <= LowerChar(c) <= 'Z')
    ensures LowerChar(c) == c || TwoCases(c, LowerChar(c))
  {
  }

  /** Lowering merges exactly the spellings that differ in ASCII case, and leaves no capital. */
  lemma LowerIff(s: string, t: string)
    ensures Lower(s) == Lower(t) <==> SameLetters(s, t)
    ensures NoCapitals(Lower(s)) && SameLetters(s, Lower(s))
  {
    forall i | 0 <= i < |s|
      ensures !('A' <= Lower(s)[i] <= 'Z') && (s[i] == Lower(s)[i] || TwoCases(s[i], Lower(s)[i]))
    {
      LowerCharIff(s[i], s[i]);
    }
    if |s| == |t| {
      forall i | 0 <= i < |s| ensures Lower(s)[i] == Lower(t)[i] <==> s[i] == t[i] || TwoCases(s[i], t[i]) {
        LowerCharIff(s[i], t[i]);
      }
      assert Lower(s) == Lower(t) ==> forall i :: 0 <= i < |s| ==> Lower(s)[i] == Lower(t)[i];
    } else {
      assert |Lower(s)| != |Lower(t)|;
    }
  }

  /** Two addresses are one account in SQL if and only if they agree, up to ASCII case, without the plain
      spaces around them; the normal form has no capital and is itself such a spelling. */
  lemma NormalizeIff(s: string, t: string)
    ensures Normalize(s) == Normalize(t) <==> SameLetters(Trim(Btrim, s), Trim(Btrim, t))
    ensures NoCapitals(Normalize(s)) && SameLetters(Trim(Btrim, s), Normalize(s))
  {
    LowerIff(Trim(Btrim, s), Trim(Btrim, t));
  }

  /** The same in Python, without all white space around them. */
  lemma PyNormalizeIff(s: string, t: string)
    ensures PyNormalize(s) == PyNormalize(t) <==> SameLetters(Trim(PyStrip, s), Trim(PyStrip, t))
    ensures NoCapitals(PyNormalize(s)) && SameLetters(Trim(PyStrip, s), PyNormalize(s))
  {
    LowerIff(Trim(PyStrip, s), Trim(PyStrip, t));
  }

  lemma BareLower(k: Trimming, s: string)
    ensures Bare(k, Lower(s)) <==> Bare(k, s)
  {
    assert forall i :: 0 <= i < |s| ==> Blank(k, LowerChar(s[i])) == Blank(k, s[i]);
  }

  lemma LowerTwice(s: string)
    ensures Lower(Lower(s)) == Lower(s)
  {
    assert forall i :: 0 <= i < |s| ==> LowerChar(LowerChar(s[i])) == LowerChar(s[i]);
  }

  /** Normalizing an already normalized address changes nothing, so `signup_allowed(v_email)`
      looks up exactly `v_email`. */
  lemma NormalizeTwice(s: string)
    ensures Normalize(Normalize(s)) == Normalize(s)
  {
    TrimIsBare(Btrim, s);
    BareLower(Btrim, Trim(Btrim, s));
    TrimOfBare(Btrim, Normalize(s));
    LowerTwice(Trim(Btrim, s));
  }

  /** The database leaves a Python-normalized address exactly as it came. */
  lemma SqlKeepsPyNormalized(s: string)
    ensures Normalize(PyNormalize(s)) == PyNormalize(s)
  {
    TrimIsBare(PyStrip, s);
    BareLower(PyStrip, Trim(PyStrip, s));
    TrimOfBare(Btrim, PyNormalize(s));
    LowerTwice(Trim(PyStrip, s));
  }

  /** The two normalizations agree on an address exactly when no tab, newline or other
      non-space white space stands at the border of the address below its plain spaces. */
  lemma NormalizationsAgree(s: string)
    ensures PyNormalize(s) == Normalize(s) <==> Bare(PyStrip, Trim(Btrim, s))
  {
    var t := Trim(Btrim, s);
    StripAfterBtrim(s);
    TrimIsBare(PyStrip, t);
    if Bare(PyStrip, t) {
      TrimOfBare(PyStrip, t);
    } else {
      assert |Lower(Trim(PyStrip, t))| != |Lower(t)|;
    }
  }
}

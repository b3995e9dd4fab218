/**
 * The Python built-ins the admin handlers apply to message text and
 * callback data: `str.casefold`, `str.strip`, `str.startswith`,
 * `str.split('_')[-1]`, `str(int)` and building a `dict` from key/value
 * pairs.
 */
module PyText {
  import opened Wrappers
  import PriceFormat

  // ---------------------------------------------------------------------
  // casefold

  /**
   * Case folding of one character for the scripts the bot's commands use:
   * Latin capitals, Cyrillic capitals (U+0400 to U+042F) and the Cyrillic
   * letter variants U+1C80 to U+1C88. Python folds further characters,
   * some of them into Latin letters (accented capitals, the Kelvin sign,
   * the long s, the sharp s), but no character outside this set folds into
   * the Cyrillic letters U+0430 to U+045F. So whether a folded text equals a
   * lower-case Russian word, which is all the cancel and back commands ask,
   * comes out as in Python.
   */
  function FoldChar(c: char): char
  {
    if 'A' <= c <= 'Z' then (c as int + 32) as char
    else if 'А' <= c <= 'Я' then (c as int + 32) as char
    else if 'Ѐ' <= c <= 'Џ' then (c as int + 80) as char
    else if c == 'ᲀ' then 'в'
    else if c == 'ᲁ' then 'д'
    else if c == 'ᲂ' then 'о'
    else if c == 'ᲃ' then 'с'
    else if c == 'ᲄ' || c == 'ᲅ' then 'т'
    else if c == 'ᲆ' then 'ъ'
    else if c == 'ᲇ' then 'ѣ'
    else if c == 'ᲈ' then 'ꙋ'
    else c
  }

  /** `s.casefold()`, character by character. */
  function CaseFold(s: string): (r: string)
    ensures |r| == |s|
    ensures forall i :: 0 <= i < |s| ==> r[i] == FoldChar(s[i])
  {
    seq(|s|, i requires 0 <= i < |s| => FoldChar(s[i]))
  }

  /** Folding twice is folding once. */
  lemma CaseFoldIdempotent(s: string)
    ensures CaseFold(CaseFold(s)) == CaseFold(s)
  {
    forall i | 0 <= i < |s|
      ensures FoldChar(FoldChar(s[i])) == FoldChar(s[i])
    {
    }
  }

  /** "Отмена", "ОТМЕНА" and "отмена" all fold to the cancel word. */
  lemma CancelSpellings()
    ensures CaseFold("Отмена") == "отмена"
    ensures CaseFold("ОТМЕНА") == "отмена"
    ensures CaseFold("отмена") == "отмена"
    ensures CaseFold("Назад") == "назад"
  {
  }

  // ---------------------------------------------------------------------
  // strip

  /**
   * The characters for which Python's `str.isspace()` holds: U+0009 to
   * U+000D, U+001C to U+0020, U+0085, U+00A0, U+1680, U+2000 to U+200A,
   * U+2028, U+2029, U+202F, U+205F and U+3000.
   */
  predicate IsSpace(c: char)
  {
    || '\t' <= c <= '\r'
    || '\U{1C}' <= c <= ' '
    || c == '\U{85}' || c == '\U{A0}' || c == '\U{1680}'
    || '\U{2000}' <= c <= '\U{200A}'
    || c == '\U{2028}' || c == '\U{2029}' || c == '\U{202F}' || c == '\U{205F}' || c == '\U{3000}'
  }

  function StripLeft(s: string): (r: string)
    ensures |r| <= |s| && r == s[|s| - |r|..]
    ensures r != [] ==> !IsSpace(r[0])
    ensures forall i :: 0 <= i < |s| - |r| ==> IsSpace(s[i])
  {
    if s != [] && IsSpace(s[0]) then
      var r := StripLeft(s[1..]);
      assert s[1..][|s| - 1 - |r|..] == s[|s| - |r|..];
      assert forall i :: 1 <= i < |s| - |r| ==> s[i] == s[1..][i - 1];
      r
    else s
  }

  function StripRight(s: string): (r: string)
    ensures |r| <= |s| && r == s[..|r|]
    ensures r != [] ==> !IsSpace(r[|r| - 1])
    ensures forall i :: |r| <= i < |s| ==> IsSpace(s[i])
  {
    if s != [] && IsSpace(s[|s| - 1]) then
      var r := StripRight(s[..|s| - 1]);
      assert s[..|s| - 1][..|r|] == s[..|r|];
      assert forall i :: |r| <= i < |s| - 1 ==> s[i] == s[..|s| - 1][i];
      r
    else s
  }

  /** `s.strip()`: whitespace removed from both ends. */
  function Strip(s: string): (r: string)
    ensures |r| <= |s|
    ensures r != [] ==> !IsSpace(r[0]) && !IsSpace(r[|r| - 1])
  {
    StripRight(StripLeft(s))
  }

  /**
   * Dropping whitespace from the front of s (leaving l) and then from the back
   * of l (leaving r) keeps a contiguous part of s and drops only whitespace.
   */
  lemma DropsOnlySpaces(s: string, l: string, r: string)
    requires |l| <= |s| && l == s[|s| - |l|..] && forall i :: 0 <= i < |s| - |l| ==> IsSpace(s[i])
    requires |r| <= |l| && r == l[..|r|] && forall i :: |r| <= i < |l| ==> IsSpace(l[i])
    ensures var k := |s| - |l|;
      && k + |r| <= |s| && r == s[k..k + |r|]
      && (forall i :: k + |r| <= i < |s| ==> IsSpace(s[i]))
  {
    var k := |s| - |l|;
    forall i | k + |r| <= i < |s|
      ensures IsSpace(s[i])
    {
      assert s[i] == l[i - k];
    }
  }

  /**
   * What `strip` keeps is a contiguous part of s, and everything it drops on
   * either side is whitespace.
   */
  lemma StripDropsOnlySpaces(s: string)
    ensures var k := |s| - |StripLeft(s)|; var r := Strip(s);
      && k + |r| <= |s| && r == s[k..k + |r|]
      && (forall i :: 0 <= i < k ==> IsSpace(s[i]))
      && (forall i :: k + |r| <= i < |s| ==> IsSpace(s[i]))
  {
    var l := StripLeft(s);
    var r := StripRight(l);
    assert Strip(s) == r;
    DropsOnlySpaces(s, l, r);
  }

  /** Stripping twice is stripping once. */
  lemma StripIdempotent(s: string)
    ensures Strip(Strip(s)) == Strip(s)
  {
    var r := Strip(s);
    if r != [] {
      assert StripLeft(r) == r;
      assert StripRight(r) == r;
    }
  }

  // ---------------------------------------------------------------------
  // startswith and split

  predicate StartsWith(s: string, prefix: string)
  {
    |prefix| <= |s| && s[..|prefix|] == prefix
  }

  /** `s.split('_')[-1]`: what follows the last underscore, or all of s when it has none. */
  function LastSegment(s: string): (r: string)
    ensures |r| <= |s|
  {
    if s == [] then []
    else if s[|s| - 1] == '_' then []
    else LastSegment(s[..|s| - 1]) + [s[|s| - 1]]
  }

  /**
   * The last segment is the tail of s after its last underscore: it holds no
   * underscore, an underscore comes just before it unless it is all of s, and
   * it is all of s when s has no underscore.
   */
  lemma {:induction false} LastSegmentIsTail(s: string)
    ensures var r := LastSegment(s);
      && r == s[|s| - |r|..]
      && '_' !in r
      && (|r| < |s| ==> s[|s| - |r| - 1] == '_')
      && ('_' !in s ==> r == s)
  {
    if s != [] && s[|s| - 1] != '_' {
      var init := s[..|s| - 1];
      LastSegmentIsTail(init);
      var r' := LastSegment(init);
      assert init[|init| - |r'|..] + [s[|s| - 1]] == s[|s| - |r'| - 1..];
      assert '_' !in s ==> '_' !in init by {
        if '_' in init {
          var i :| 0 <= i < |init| && init[i] == '_';
          assert s[i] == '_';
        }
      }
    }
  }

  /** The id after a prefix comes back as the last segment. */
  lemma {:induction false} LastSegmentOfPayload(prefix: string, digits: string)
    requires '_' !in digits
    ensures LastSegment(prefix + "_" + digits) == digits
    decreases |digits|
  {
    var s := prefix + "_" + digits;
    if digits == [] {
      assert s[|s| - 1] == '_';
    } else {
      var init := digits[..|digits| - 1];
      assert s[..|s| - 1] == prefix + "_" + init;
      LastSegmentOfPayload(prefix, init);
    }
  }

  // ---------------------------------------------------------------------
  // str(int)

  /** `str(n)` for an integer. */
  function IntText(n: int): (r: string)
    ensures r != [] && '_' !in r
  {
    if n >= 0 then PriceFormat.Digits(n) else "-" + PriceFormat.Digits(-n)
  }

  // ---------------------------------------------------------------------
  // dict

  /** The position of key k in a list of dict items. */
  function KeyIndex(d: seq<(string, string)>, k: string): (r: Option<nat>)
    ensures r.Some? ==> r.value < |d| && d[r.value].0 == k
    ensures r.None? ==> forall i :: 0 <= i < |d| ==> d[i].0 != k
  {
    if d == [] then None
    else match KeyIndex(d[..|d| - 1], k)
      case Some(i) => Some(i)
      case None => if d[|d| - 1].0 == k then Some(|d| - 1) else None
  }

  predicate UniqueKeys(d: seq<(string, string)>)
  {
    forall i, j :: 0 <= i < j < |d| ==> d[i].0 != d[j].0
  }

  /** `d[k] = v`: an existing key keeps its place and takes the new value; a new key goes last. */
  function Put(d: seq<(string, string)>, k: string, v: string): (r: seq<(string, string)>)
    requires UniqueKeys(d)
    ensures UniqueKeys(r) && r != []
    ensures KeyIndex(d, k).Some? ==> r == d[KeyIndex(d, k).value := (k, v)]
    ensures KeyIndex(d, k).None? ==> r == d + [(k, v)]
  {
    match KeyIndex(d, k)
    case Some(i) => d[i := (k, v)]
    case None => d + [(k, v)]
  }

  /** The value a dict holds for k. */
  function Lookup(d: seq<(string, string)>, k: string): Option<string>
  {
    match KeyIndex(d, k)
    case Some(i) => Some(d[i].1)
    case None => None
  }

  /** The value of the last pair with key k, as a dict built from the pairs in order keeps. */
  function LastValue(pairs: seq<(string, string)>, k: string): Option<string>
  {
    if pairs == [] then None
    else if pairs[|pairs| - 1].0 == k then Some(pairs[|pairs| - 1].1)
    else LastValue(pairs[..|pairs| - 1], k)
  }

  /** A dict display or comprehension over the pairs, as its list of items. */
  function DictFrom(pairs: seq<(string, string)>): (d: seq<(string, string)>)
    ensures UniqueKeys(d)
    ensures d == [] <==> pairs == []
    ensures |d| <= |pairs|
  {
    if pairs == [] then []
    else Put(DictFrom(pairs[..|pairs| - 1]), pairs[|pairs| - 1].0, pairs[|pairs| - 1].1)
  }

  /** Two positions holding the same key in a dict are the same position. */
  lemma KeyIndexUnique(d: seq<(string, string)>, k: string, i: nat)
    requires UniqueKeys(d) && i < |d| && d[i].0 == k
    ensures KeyIndex(d, k) == Some(i)
  {
  }

  lemma LookupPut(d: seq<(string, string)>, k: string, v: string, q: string)
    requires UniqueKeys(d)
    ensures Lookup(Put(d, k, v), q) == if q == k then Some(v) else Lookup(d, q)
  {
    var r := Put(d, k, v);
    if q == k {
      KeyIndexUnique(r, k, if KeyIndex(d, k).Some? then KeyIndex(d, k).value else |d|);
    } else if KeyIndex(d, q).Some? {
      var j := KeyIndex(d, q).value;
      assert r[j] == d[j];
      KeyIndexUnique(r, q, j);
    } else {
      assert forall j :: 0 <= j < |r| ==> r[j].0 != q by {
        forall j | 0 <= j < |r|
          ensures r[j].0 != q
        {
          if j < |d| {
            assert r[j] == d[j] || r[j].0 == k;
          }
        }
      }
    }
  }

  /** Each key of the built dict holds the last value given for it. */
  lemma {:induction false} DictFromLookup(pairs: seq<(string, string)>, k: string)
    ensures Lookup(DictFrom(pairs), k) == LastValue(pairs, k)
  {
    if pairs != [] {
      var init := pairs[..|pairs| - 1];
      DictFromLookup(init, k);
      LookupPut(DictFrom(init), pairs[|pairs| - 1].0, pairs[|pairs| - 1].1, k);
    }
  }
}

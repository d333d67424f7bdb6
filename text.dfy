/**
  The string operations the extractors use: Python's `sep.join(parts)`, its
  inverse `s.split(", ")`, substring membership (`needle in hay`) and
  `str.upper()` on ASCII letters.
 */
module Text {

  /** The separator every multi-valued cell is joined with. */
  const Sep: string := ", "

  /** `sep.join(parts)`: the parts in order, with `sep` between neighbours. */
  function Join(sep: string, parts: seq<string>): string
  {
    if |parts| == 0 then ""
    else if |parts| == 1 then parts[0]
    else parts[0] + sep + Join(sep, parts[1..])
  }

  /** An occurrence of `Sep` starts at index `i` of `s`. */
  predicate SepAt(s: string, i: int)
  {
    0 <= i && i + 1 < |s| && s[i] == ',' && s[i + 1] == ' '
  }

  predicate ContainsSep(s: string)
  {
    exists i :: 0 <= i < |s| && SepAt(s, i)
  }

  /** The first occurrence of `Sep` at or after `from`, or `|s|` when there is none. */
  function FindSep(s: string, from: nat): (k: nat)
    requires from <= |s|
    ensures from <= k <= |s|
    ensures k < |s| ==> SepAt(s, k)
    ensures forall i :: from <= i < k ==> !SepAt(s, i)
    decreases |s| - from
  {
    if from + 1 >= |s| then |s|
    else if s[from] == ',' && s[from + 1] == ' ' then from
    else FindSep(s, from + 1)
  }

  /** Python's `s.split(", ")`: the text between successive separators, left to right. */
  function Split(s: string): (parts: seq<string>)
    ensures |parts| > 0
    decreases |s|
  {
    var k := FindSep(s, 0);
    if k == |s| then [s] else [s[..k]] + Split(s[k + 2..])
  }

  /** The first separator is the one found when nothing before it is one. */
  lemma FindSepFirst(s: string, m: nat)
    requires SepAt(s, m)
    requires forall i :: 0 <= i < m ==> !SepAt(s, i)
    ensures FindSep(s, 0) == m
  {
  }

  /**
    Splitting a joined list gives the list back, as long as no part contains
    the separator itself: the multi-valued cells lose nothing in that case.
   */
  lemma {:induction false} SplitJoin(parts: seq<string>)
    requires |parts| > 0
    requires forall p :: p in parts ==> !ContainsSep(p)
    ensures Split(Join(Sep, parts)) == parts
  {
    var x := parts[0];
    if |parts| == 1 {
      assert !ContainsSep(x);
      assert FindSep(x, 0) == |x|;
    } else {
      var rest := Join(Sep, parts[1..]);
      var s := Join(Sep, parts);
      assert s == x + Sep + rest;
      assert !ContainsSep(x);
      forall i | 0 <= i < |x|
        ensures !SepAt(s, i)
      {
        if i + 1 < |x| {
          assert s[i] == x[i] && s[i + 1] == x[i + 1];
          assert !SepAt(x, i);
        } else {
          assert s[i + 1] == ',';
        }
      }
      assert SepAt(s, |x|);
      FindSepFirst(s, |x|);
      assert s[..|x|] == x;
      assert s[|x| + 2..] == rest;
      forall p | p in parts[1..] ensures !ContainsSep(p) {
        assert p in parts;
      }
      SplitJoin(parts[1..]);
    }
  }

  /** `needle in hay` for strings: `needle` occurs as a contiguous piece of `hay`. */
  predicate Occurs(needle: string, hay: string)
    decreases |hay|
  {
    needle <= hay || (|hay| > 0 && Occurs(needle, hay[1..]))
  }

  /** `needle` stands in `hay` from index `i` on. */
  predicate OccursAt(needle: string, hay: string, i: int)
  {
    0 <= i && i + |needle| <= |hay| && hay[i..i + |needle|] == needle
  }

  /** `Occurs` finds exactly the positions at which `needle` stands in `hay`. */
  lemma {:induction false} OccursIff(needle: string, hay: string)
    ensures Occurs(needle, hay) <==> exists i :: 0 <= i <= |hay| && OccursAt(needle, hay, i)
    decreases |hay|
  {
    if needle <= hay {
      assert OccursAt(needle, hay, 0);
    } else if |hay| > 0 {
      OccursIff(needle, hay[1..]);
      if exists i :: 0 <= i <= |hay| && OccursAt(needle, hay, i) {
        var i :| 0 <= i <= |hay| && OccursAt(needle, hay, i);
        if i > 0 {
          assert OccursAt(needle, hay[1..], i - 1);
        }
      }
      if Occurs(needle, hay[1..]) {
        var i :| 0 <= i <= |hay[1..]| && OccursAt(needle, hay[1..], i);
        assert OccursAt(needle, hay, i + 1);
      }
    } else {
      assert |needle| > 0;
    }
  }

  /** ASCII upper-casing of one character. */
  function UpperChar(c: char): char
  {
    if 'a' <= c <= 'z' then (c as int - 32) as char else c
  }

  /** `s.upper()` restricted to ASCII letters. */
  function Upper(s: string): string
  {
    seq(|s|, i requires 0 <= i < |s| => UpperChar(s[i]))
  }

  /**
    Upper-casing keeps the length, leaves no lower-case ASCII letter, changes
    nothing but lower-case letters, and a second application changes nothing.
   */
  lemma UpperFacts(s: string)
    ensures |Upper(s)| == |s|
    ensures forall i :: 0 <= i < |s| ==> !('a' <= Upper(s)[i] <= 'z')
    ensures forall i :: 0 <= i < |s| && !('a' <= s[i] <= 'z') ==> Upper(s)[i] == s[i]
    ensures forall i :: 0 <= i < |s| && 'a' <= s[i] <= 'z' ==> Upper(s)[i] as int == s[i] as int - 32
    ensures Upper(Upper(s)) == Upper(s)
  {
  }
}

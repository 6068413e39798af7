/** Text operations behind `simple_search`: `str.lower()` and the `in` substring test. */
module Text {

  /** `str.lower()` on one character, for the Latin and Cyrillic capitals the records use:
      `A`-`Z`, `А`-`Я` (shifted by 0x20) and `Ё` (to `ё`). Every other character is kept. */
  function Lower(c: char): (r: char)
    ensures ('A' <= c <= 'Z' || 'А' <= c <= 'Я') ==> r as int == c as int + 32
    ensures c == 'Ё' ==> r == 'ё'
    ensures !('A' <= c <= 'Z' || 'А' <= c <= 'Я' || c == 'Ё') ==> r == c
  {
    if 'A' <= c <= 'Z' || 'А' <= c <= 'Я' then (c as int + 32) as char
    else if c == 'Ё' then 'ё'
    else c
  }

  function LowerStr(s: string): (r: string)
    ensures |r| == |s| && forall i :: 0 <= i < |s| ==> r[i] == Lower(s[i])
  {
    if s == [] then [] else [Lower(s[0])] + LowerStr(s[1..])
  }

  /** Lower-casing twice is lower-casing once. */
  lemma {:induction false} LowerIdempotent(c: char)
    ensures Lower(Lower(c)) == Lower(c)
  {
  }

  lemma {:induction false} LowerStrIdempotent(s: string)
    ensures LowerStr(LowerStr(s)) == LowerStr(s)
  {
    var once := LowerStr(s);
    forall i | 0 <= i < |s|
      ensures LowerStr(once)[i] == once[i]
    {
      LowerIdempotent(s[i]);
    }
  }

  /** `needle in hay`: `needle` is a contiguous slice of `hay`. */
  ghost predicate Occurs(needle: string, hay: string)
  {
    exists i :: StartsAt(needle, hay, i)
  }

  /** `needle` is the slice of `hay` starting at position `i`. */
  predicate StartsAt(needle: string, hay: string, i: int)
  {
    0 <= i <= |hay| - |needle| && hay[i..i + |needle|] == needle
  }

  /** The scan Python performs for `needle in hay`: try each start position in turn. */
  predicate IsInfix(needle: string, hay: string)
    decreases |hay|
  {
    |needle| <= |hay| && (hay[..|needle|] == needle || IsInfix(needle, hay[1..]))
  }

  lemma {:induction false} IsInfixMeansOccurs(needle: string, hay: string)
    ensures IsInfix(needle, hay) <==> Occurs(needle, hay)
    decreases |hay|
  {
    if |needle| <= |hay| {
      if hay[..|needle|] == needle {
        assert StartsAt(needle, hay, 0);
      } else {
        IsInfixMeansOccurs(needle, hay[1..]);
        if Occurs(needle, hay) {
          var i :| StartsAt(needle, hay, i);
          assert i != 0;
          assert hay[1..][i - 1..i - 1 + |needle|] == hay[i..i + |needle|];
          assert StartsAt(needle, hay[1..], i - 1);
        }
        if Occurs(needle, hay[1..]) {
          var i :| StartsAt(needle, hay[1..], i);
          assert hay[i + 1..i + 1 + |needle|] == hay[1..][i..i + |needle|];
          assert StartsAt(needle, hay, i + 1);
        }
      }
    }
  }

  /** The empty text occurs in every text: an empty query would match every record. */
  lemma {:induction false} EmptyOccurs(hay: string)
    ensures IsInfix("", hay)
  {
    assert hay[..0] == "";
  }
}

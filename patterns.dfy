/** The regular expressions the transfer and phone searches use, as a small pattern language: a
    pattern is a sequence of atoms, each a character class with a quantifier. `re.search` succeeds
    when the pattern matches a prefix of some suffix of the text. */
module Patterns {
  import Calendar
  import Text

  datatype CharClass =
    | Exactly(c: char)            // a literal character such as `\+` or `\.`
    | Between(lo: char, hi: char) // a range such as `[А-Я]` or `\d`
    | Whitespace                  // `\s`
    | DashOrWhitespace            // `[-\s]`

  datatype Atom =
    | One(cls: CharClass)         // the class once
    | Optional(cls: CharClass)    // `?`
    | OneOrMore(cls: CharClass)   // `+`
    | ZeroOrMore(cls: CharClass)  // `*`

  type Pattern = seq<Atom>

  predicate InClass(cls: CharClass, c: char)
  {
    match cls
    case Exactly(x) => c == x
    case Between(lo, hi) => lo <= c <= hi
    case Whitespace => Calendar.IsSpace(c)
    case DashOrWhitespace => c == '-' || Calendar.IsSpace(c)
  }

  /** The pattern matches some prefix of `s` (backtracking over every choice a quantifier allows). */
  predicate MatchesPrefix(p: Pattern, s: string)
    decreases |s|, |p|
  {
    if p == [] then true
    else
      var rest := p[1..];
      match p[0]
      case One(cls) => s != [] && InClass(cls, s[0]) && MatchesPrefix(rest, s[1..])
      case Optional(cls) =>
        MatchesPrefix(rest, s) || (s != [] && InClass(cls, s[0]) && MatchesPrefix(rest, s[1..]))
      case OneOrMore(cls) =>
        s != [] && InClass(cls, s[0]) && MatchesPrefix([ZeroOrMore(cls)] + rest, s[1..])
      case ZeroOrMore(cls) =>
        MatchesPrefix(rest, s) || (s != [] && InClass(cls, s[0]) && MatchesPrefix(p, s[1..]))
  }

  /** `re.search(p, s)` finds a match: try each start position in turn. */
  predicate Search(p: Pattern, s: string)
    decreases |s|
  {
    MatchesPrefix(p, s) || (s != [] && Search(p, s[1..]))
  }

  function Digit(): CharClass
  {
    Between('0', '9')
  }

  /** `\+7\s?\d{3}\s?\d{3}[-\s]?\d{2}[-\s]?\d{2}`, the default phone-number pattern. */
  function PhonePattern(): Pattern
  {
    [One(Exactly('+')), One(Exactly('7')), Optional(Whitespace),
     One(Digit()), One(Digit()), One(Digit()), Optional(Whitespace),
     One(Digit()), One(Digit()), One(Digit()), Optional(DashOrWhitespace),
     One(Digit()), One(Digit()), Optional(DashOrWhitespace),
     One(Digit()), One(Digit())]
  }

  /** `[А-Я][а-я]+\s[А-Я]\.`, the default pattern for a surname followed by an initial. */
  function NamePattern(): Pattern
  {
    [One(Between('А', 'Я')), OneOrMore(Between('а', 'я')), One(Whitespace),
     One(Between('А', 'Я')), One(Exactly('.'))]
  }

  /** A text in which Python's `re` treats every character as itself: none of `.^$*+?{}[]\|()`. */
  predicate PlainText(t: string)
  {
    forall i :: 0 <= i < |t| ==> t[i] !in ".^$*+?{}[]\\|()"
  }

  /** A pattern without metacharacters: each character stands for itself. */
  function Literal(t: string): (p: Pattern)
    ensures |p| == |t| && forall i :: 0 <= i < |t| ==> p[i] == One(Exactly(t[i]))
  {
    if t == [] then [] else [One(Exactly(t[0]))] + Literal(t[1..])
  }

  /** The pattern a search compiles: the caller's text when it is given and non-empty (Python's
      `pattern or default`), the default pattern otherwise. */
  function Effective(custom: string, default: Pattern): (p: Pattern)
    ensures custom == "" ==> p == default
    ensures custom != "" ==> p == Literal(custom)
  {
    if custom == "" then default else Literal(custom)
  }

  // ---------------------------------------------------------------- properties

  /** A literal pattern matches a prefix exactly when the text starts with it. */
  lemma {:induction false} LiteralPrefix(t: string, s: string)
    ensures MatchesPrefix(Literal(t), s) <==> (|t| <= |s| && s[..|t|] == t)
  {
    if t != [] {
      assert Literal(t)[1..] == Literal(t[1..]);
      if s != [] {
        LiteralPrefix(t[1..], s[1..]);
        if |t| <= |s| && s[..|t|] == t {
          assert s[1..][..|t| - 1] == t[1..];
        }
        if s[0] == t[0] && |t[1..]| <= |s[1..]| && s[1..][..|t[1..]|] == t[1..] {
          assert s[..|t|] == [s[0]] + s[1..][..|t[1..]|];
          assert t == [t[0]] + t[1..];
        }
      }
    } else {
      assert s[..0] == t;
    }
  }

  /** Searching with a literal pattern is the substring test. */
  lemma {:induction false} LiteralSearch(t: string, s: string)
    ensures Search(Literal(t), s) <==> Text.IsInfix(t, s)
    decreases |s|
  {
    LiteralPrefix(t, s);
    if s != [] {
      LiteralSearch(t, s[1..]);
    }
    if t == [] {
      assert s[..0] == t;
    }
  }

  /** A search succeeds exactly when some suffix of the text starts with a match. */
  lemma {:induction false} SearchSomeSuffix(p: Pattern, s: string)
    ensures Search(p, s) <==> exists i :: 0 <= i <= |s| && MatchesPrefix(p, s[i..])
    decreases |s|
  {
    if MatchesPrefix(p, s) {
      assert s[0..] == s;
    }
    if s != [] {
      SearchSomeSuffix(p, s[1..]);
      if Search(p, s[1..]) {
        var i :| 0 <= i <= |s[1..]| && MatchesPrefix(p, s[1..][i..]);
        assert s[1..][i..] == s[i + 1..];
      }
      if exists i :: 0 <= i <= |s| && MatchesPrefix(p, s[i..]) {
        var i :| 0 <= i <= |s| && MatchesPrefix(p, s[i..]);
        if i > 0 {
          assert s[1..][i - 1..] == s[i..];
        }
      }
    } else {
      if exists i :: 0 <= i <= |s| && MatchesPrefix(p, s[i..]) {
        var i :| 0 <= i <= |s| && MatchesPrefix(p, s[i..]);
        assert s[i..] == s;
      }
    }
  }

  /** The search steps one pattern position forward by consuming one character of its class
      (a `One` atom, or an `Optional` atom that takes its character). */
  lemma {:induction false} StepAt(p: Pattern, k: int, s: string, j: int)
    requires 0 <= k < |p| && 0 <= j < |s| && (p[k].One? || p[k].Optional?)
    requires InClass(p[k].cls, s[j]) && MatchesPrefix(p[k + 1..], s[j + 1..])
    ensures MatchesPrefix(p[k..], s[j..])
  {
    assert p[k..][0] == p[k] && p[k..][1..] == p[k + 1..];
    assert s[j..][1..] == s[j + 1..];
  }

  /** An `Optional` or `ZeroOrMore` atom may consume nothing. */
  lemma {:induction false} SkipAt(p: Pattern, k: int, s: string, j: int)
    requires 0 <= k < |p| && 0 <= j <= |s| && (p[k].Optional? || p[k].ZeroOrMore?)
    requires MatchesPrefix(p[k + 1..], s[j..])
    ensures MatchesPrefix(p[k..], s[j..])
  {
    assert p[k..][0] == p[k] && p[k..][1..] == p[k + 1..];
  }

  /** `cls*` followed by `rest` matches any run of `n` characters of the class followed by a
      match of `rest`. */
  lemma {:induction false} StarRun(cls: CharClass, rest: Pattern, s: string, j: int, n: nat)
    requires 0 <= j && j + n <= |s|
    requires forall i :: j <= i < j + n ==> InClass(cls, s[i])
    requires MatchesPrefix(rest, s[j + n..])
    ensures MatchesPrefix([ZeroOrMore(cls)] + rest, s[j..])
    decreases n
  {
    var q := [ZeroOrMore(cls)] + rest;
    assert q[1..] == rest;
    if n > 0 {
      StarRun(cls, rest, s, j + 1, n - 1);
      assert s[j..][1..] == s[j + 1..];
    }
  }

  /** A `OneOrMore` atom consumes a non-empty run of characters of its class. */
  lemma {:induction false} RunAt(p: Pattern, k: int, s: string, j: int, n: nat)
    requires 0 <= k < |p| && p[k].OneOrMore? && 0 <= j && 0 < n && j + n <= |s|
    requires forall i :: j <= i < j + n ==> InClass(p[k].cls, s[i])
    requires MatchesPrefix(p[k + 1..], s[j + n..])
    ensures MatchesPrefix(p[k..], s[j..])
  {
    StarRun(p[k].cls, p[k + 1..], s, j + 1, n - 1);
    assert p[k..][0] == p[k] && p[k..][1..] == p[k + 1..];
    assert s[j..][1..] == s[j + 1..];
  }

  /** Whatever the default phone pattern matches starts with `+`, so a text without `+` holds no
      phone number. */
  lemma {:induction false} PhoneSearchNeedsPlus(s: string)
    requires Search(PhonePattern(), s)
    ensures '+' in s
  {
    SearchSomeSuffix(PhonePattern(), s);
    var i :| 0 <= i <= |s| && MatchesPrefix(PhonePattern(), s[i..]);
    assert s[i..][0] == s[i];
  }

  /** A pattern of `One` and `Optional` atoms matches a text of its own length whose every
      character is in the class of the atom at its position. */
  lemma {:induction false} AtomwiseMatch(p: Pattern, s: string)
    requires |p| == |s|
    requires forall i :: 0 <= i < |p| ==> (p[i].One? || p[i].Optional?) && InClass(p[i].cls, s[i])
    ensures MatchesPrefix(p, s)
    decreases |p|
  {
    if p != [] {
      AtomwiseMatch(p[1..], s[1..]);
    }
  }

  /** The phone number of the transfer description in the source's tests, `+7 999 123-45-67`:
      every `Optional` atom of the default pattern takes its character. */
  lemma {:induction false} PhoneNumberMatches(s: string)
    requires s == "+7 999 123-45-67"
    ensures MatchesPrefix(PhonePattern(), s)
  {
    var p := PhonePattern();
    forall i | 0 <= i < |p|
      ensures (p[i].One? || p[i].Optional?) && InClass(p[i].cls, s[i])
    {
      if i < 4 {
        assert i == 0 || i == 1 || i == 2 || i == 3;
      } else if i < 8 {
        assert i == 4 || i == 5 || i == 6 || i == 7;
      } else if i < 12 {
        assert i == 8 || i == 9 || i == 10 || i == 11;
      } else {
        assert i == 12 || i == 13 || i == 14 || i == 15;
      }
    }
    AtomwiseMatch(p, s);
  }

  /** The default phone pattern finds the number in the transfer description of the source's
      tests. */
  lemma {:induction false} PhoneFoundInTransfer(s: string)
    requires s == "Перевод Иванову А.А. +7 999 123-45-67"
    ensures Search(PhonePattern(), s)
  {
    assert s[21..] == "+7 999 123-45-67";
    PhoneNumberMatches(s[21..]);
    SearchSomeSuffix(PhonePattern(), s);
  }

  /** The default name pattern finds `<Surname> <Initial>.` in a transfer description that starts
      with the eight characters `Перевод `, as both transfers in the source's tests do. */
  lemma {:induction false} NameFoundAfterPrefix(s: string, surnameLength: nat)
    requires 12 + surnameLength <= |s| && 1 <= surnameLength
    requires 'А' <= s[8] <= 'Я'
    requires forall i :: 9 <= i < 9 + surnameLength ==> 'а' <= s[i] <= 'я'
    requires s[9 + surnameLength] == ' ' && 'А' <= s[10 + surnameLength] <= 'Я'
    requires s[11 + surnameLength] == '.'
    ensures Search(NamePattern(), s)
  {
    var p, n := NamePattern(), surnameLength;
    assert p[5..] == [];
    StepAt(p, 4, s, 11 + n);
    StepAt(p, 3, s, 10 + n);
    StepAt(p, 2, s, 9 + n);
    RunAt(p, 1, s, 9, n);
    StepAt(p, 0, s, 8);
    assert p[0..] == p;
    SearchSomeSuffix(p, s);
  }
}

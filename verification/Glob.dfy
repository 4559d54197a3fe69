/** Glob patterns for key scans, matched by translating them to regular expressions. The regular
    expressions are read by the grammar of section 15.10 of ECMA-262 (3rd edition), restricted to
    the terms the translation needs; every syntax character may be escaped by a backslash. Keys are
    bytes, so the line terminators are the two that are one byte. */
module Glob {
  import opened Basics

  // ---------- glob patterns ----------

  /** What a pattern means: a star stands for any characters, a question mark for one. */
  predicate Matches(pattern: string, key: string)
    decreases |pattern| + |key|
  {
    if pattern == [] then key == []
    else match pattern[0] {
      case '*' => Matches(pattern[1..], key) || (key != [] && Matches(pattern, key[1..]))
      case '?' => key != [] && Matches(pattern[1..], key[1..])
      case c => key != [] && key[0] == c && Matches(pattern[1..], key[1..])
    }
  }

  // ---------- regular expressions ----------

  datatype Atom = AnyCharacter | Character(c: char)

  datatype Term = Term(atom: Atom, star: bool)

  predicate IsSyntax(c: char) {
    c in {'^', '$', '\\', '.', '*', '+', '?', '(', ')', '[', ']', '{', '}', '|'}
  }

  predicate IsQuantifier(c: char) {
    c in {'*', '+', '?', '{'}
  }

  predicate IsLineTerminator(c: char) {
    c in {'\n', '\r'}
  }

  /** The atom a string begins with, and what follows it. */
  function ParseAtom(s: string): Option<(Atom, string)> {
    if s == [] then None
    else if s[0] == '.' then Some((AnyCharacter, s[1..]))
    else if s[0] == '\\' then
      if |s| >= 2 && IsSyntax(s[1]) then Some((Character(s[1]), s[2..])) else None
    else if IsSyntax(s[0]) then None
    else Some((Character(s[0]), s[1..]))
  }

  /** A sequence of terms: atoms, each with at most a greedy star. Anything else is not read. */
  function Parse(s: string): Option<seq<Term>>
    decreases |s|
  {
    if s == [] then Some([])
    else
      match ParseAtom(s)
      case None => None
      case Some((atom, rest)) =>
        var star := rest != [] && rest[0] == '*';
        var after := if star then rest[1..] else rest;
        if after != [] && IsQuantifier(after[0]) then None
        else if |after| >= |s| then None
        else
          match Parse(after)
          case None => None
          case Some(terms) => Some([Term(atom, star)] + terms)
  }

  predicate AtomMatches(a: Atom, c: char) {
    match a
    case AnyCharacter => !IsLineTerminator(c)
    case Character(d) => c == d
  }

  /** Whether the terms match the whole key. */
  predicate Accepts(terms: seq<Term>, key: string)
    decreases |terms| + |key|
  {
    if terms == [] then key == []
    else if terms[0].star then
      Accepts(terms[1..], key) || (key != [] && AtomMatches(terms[0].atom, key[0]) && Accepts(terms, key[1..]))
    else key != [] && AtomMatches(terms[0].atom, key[0]) && Accepts(terms[1..], key[1..])
  }

  // ---------- the translation ----------

  /** The characters the translation puts a backslash before. */
  predicate IsEscaped(c: char) {
    c in {'.', '[', ']', '(', ')', '{', '}', '+', '^', '$', '|', '\\'}
  }

  function Piece(c: char): (s: string)
    ensures s != []
  {
    match c
    case '*' => ".*"
    case '?' => "."
    case _ => if IsEscaped(c) then ['\\', c] else [c]
  }

  function Translated(pattern: string): string {
    if pattern == [] then [] else Piece(pattern[0]) + Translated(pattern[1..])
  }

  method Translate(pattern: string) returns (regex: string)
    ensures regex == Translated(pattern)
  {
    hide Translated, IsEscaped;
    regex := [];
    TranslatedNone(pattern);
    for i := 0 to |pattern|
      invariant regex == Translated(pattern[..i])
    {
      var c := pattern[i];
      TranslatedNext(pattern, i);
      if c == '*' {
        regex := regex + ".*";
      } else if c == '?' {
        regex := regex + ".";
      } else {
        if IsEscaped(c) {
          regex := regex + ['\\'];
        }
        regex := regex + [c];
      }
    }
    assert pattern[..|pattern|] == pattern;
  }

  lemma TranslatedNone(pattern: string)
    ensures Translated(pattern[..0]) == []
  {
  }

  lemma {:induction false} TranslatedNext(pattern: string, i: nat)
    requires i < |pattern|
    ensures Translated(pattern[..i + 1]) == Translated(pattern[..i]) + Piece(pattern[i])
  {
    if i == 0 {
      assert pattern[..1][1..] == [];
    } else {
      TranslatedNext(pattern[1..], i - 1);
      assert pattern[1..][..i] == pattern[..i + 1][1..] && pattern[1..][..i - 1] == pattern[..i][1..];
    }
  }

  /** The syntax characters of the grammar are the two wildcards and the twelve that are escaped. */
  lemma SyntaxCharacters(c: char)
    ensures IsSyntax(c) <==> c in "^$\\.*+?()[]{}|"
    ensures IsSyntax(c) <==> c == '*' || c == '?' || Piece(c) == ['\\', c]
  {
  }

  function TermOf(c: char): Term {
    match c
    case '*' => Term(AnyCharacter, true)
    case '?' => Term(AnyCharacter, false)
    case _ => Term(Character(c), false)
  }

  function TermsOf(pattern: string): (terms: seq<Term>)
    ensures |terms| == |pattern|
  {
    if pattern == [] then [] else [TermOf(pattern[0])] + TermsOf(pattern[1..])
  }

  lemma TranslatedStart(pattern: string)
    ensures pattern != [] ==> Translated(pattern) != [] && !IsQuantifier(Translated(pattern)[0])
  {
  }

  lemma ParsePiece(c: char, rest: string)
    requires rest == [] || !IsQuantifier(rest[0])
    ensures Parse(Piece(c) + rest) ==
            match Parse(rest) { case None => None case Some(terms) => Some([TermOf(c)] + terms) }
  {
    var s := Piece(c) + rest;
    match c {
      case '*' =>
        assert s[0] == '.' && s[1..][0] == '*' && s[1..][1..] == rest;
      case '?' =>
        assert s[1..] == rest;
      case _ =>
        if IsEscaped(c) {
          assert s[0] == '\\' && s[1] == c && s[2..] == rest;
        } else {
          assert s[1..] == rest;
        }
    }
  }

  /** The regular expression parses, as one term per character of the pattern. */
  lemma {:induction false} TranslationParses(pattern: string)
    ensures Parse(Translated(pattern)) == Some(TermsOf(pattern))
  {
    if pattern != [] {
      TranslationParses(pattern[1..]);
      TranslatedStart(pattern[1..]);
      ParsePiece(pattern[0], Translated(pattern[1..]));
    }
  }

  // ---------- the meaning is preserved ----------

  /** The glob with wildcards that do not stand for line terminators. */
  predicate MatchesLines(pattern: string, key: string)
    decreases |pattern| + |key|
  {
    if pattern == [] then key == []
    else match pattern[0] {
      case '*' =>
        MatchesLines(pattern[1..], key) || (key != [] && !IsLineTerminator(key[0]) && MatchesLines(pattern, key[1..]))
      case '?' => key != [] && !IsLineTerminator(key[0]) && MatchesLines(pattern[1..], key[1..])
      case c => key != [] && key[0] == c && MatchesLines(pattern[1..], key[1..])
    }
  }

  lemma {:induction false} TermsMean(pattern: string, key: string)
    ensures Accepts(TermsOf(pattern), key) <==> MatchesLines(pattern, key)
    decreases |pattern| + |key|
  {
    if pattern != [] {
      TermsMean(pattern[1..], key);
      if key != [] {
        TermsMean(pattern, key[1..]);
        TermsMean(pattern[1..], key[1..]);
      }
      assert TermsOf(pattern)[1..] == TermsOf(pattern[1..]);
    }
  }

  lemma {:induction false} LinesDontMatter(pattern: string, key: string)
    requires forall c :: c in key ==> !IsLineTerminator(c)
    ensures MatchesLines(pattern, key) <==> Matches(pattern, key)
    decreases |pattern| + |key|
  {
    if pattern != [] {
      LinesDontMatter(pattern[1..], key);
      if key != [] {
        LinesDontMatter(pattern, key[1..]);
        LinesDontMatter(pattern[1..], key[1..]);
      }
    }
  }

  /** Whether a key is scanned: everything for an empty pattern or a lone star, else what the
      regular expression accepts. Parsing it cannot fail, so there is nothing to fall back to. */
  method MatchesPattern(key: string, pattern: string) returns (r: bool)
    ensures r <==> pattern == [] || pattern == "*" || MatchesLines(pattern, key)
    ensures (forall c :: c in key ==> !IsLineTerminator(c)) ==> (r <==> pattern == [] || Matches(pattern, key))
  {
    ghost var plain := forall c :: c in key ==> !IsLineTerminator(c);
    if plain {
      LinesDontMatter(pattern, key);
      StarMatchesAll(key);
    }
    if pattern == [] || pattern == "*" {
      return true;
    }
    var regex := Translate(pattern);
    TranslationParses(pattern);
    TermsMean(pattern, key);
    return Accepts(Parse(regex).value, key);
  }

  lemma {:induction false} StarMatchesAll(key: string)
    ensures Matches("*", key)
  {
    if key == [] {
      assert "*"[1..] == [];
    } else {
      StarMatchesAll(key[1..]);
    }
  }

  /** A key with a line terminator can match the glob and not its regular expression. */
  lemma LineTerminatorCounterexample()
    ensures Matches("a*", "a\n") && !MatchesLines("a*", "a\n")
  {
    assert "a*"[1..] == "*" && "a\n"[1..] == "\n" && "*"[1..] == [] && "\n"[1..] == [];
  }

  /** The regular expression never matches more than the glob. */
  lemma {:induction false} LinesMatchLess(pattern: string, key: string)
    ensures MatchesLines(pattern, key) ==> Matches(pattern, key)
    decreases |pattern| + |key|
  {
    if pattern != [] {
      LinesMatchLess(pattern[1..], key);
      if key != [] {
        LinesMatchLess(pattern, key[1..]);
        LinesMatchLess(pattern[1..], key[1..]);
      }
    }
  }

  function QuestionMarks(n: nat): string {
    seq(n, _ => '?')
  }

  /** As many question marks as the key has characters match it, unless it has a line terminator. */
  lemma {:induction false} QuestionMarksMatch(key: string)
    ensures Matches(QuestionMarks(|key|), key)
    ensures MatchesLines(QuestionMarks(|key|), key) <==> forall c :: c in key ==> !IsLineTerminator(c)
  {
    if key != [] {
      var p := QuestionMarks(|key|);
      assert p[1..] == QuestionMarks(|key[1..]|);
      QuestionMarksMatch(key[1..]);
      assert key == [key[0]] + key[1..];
    }
  }

  /** The keys on which regular expressions and globs agree, whatever the pattern, are exactly those
      without a line terminator. */
  lemma AgreesWithoutLines(key: string)
    ensures (forall c :: c in key ==> !IsLineTerminator(c)) <==>
            (forall pattern: string :: MatchesLines(pattern, key) <==> Matches(pattern, key))
  {
    QuestionMarksMatch(key);
    if forall c :: c in key ==> !IsLineTerminator(c) {
      forall pattern: string ensures MatchesLines(pattern, key) <==> Matches(pattern, key) {
        LinesDontMatter(pattern, key);
      }
    }
  }
}

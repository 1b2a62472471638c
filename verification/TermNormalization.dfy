/**
 Term names (`normalize_compiled_term` of job_ftch/application/ontology_compiler.py and
 `normalize_ontology_term` of ontology_graph_builder.py, the same function twice).
 What Unicode says about a character is a parameter, a `CharTable`; `Lawful` lists the few facts about
 case folding and character classes that the guarantees rest on.
 */
module TermNormalization {

  /** `casefold`, `isalnum` and `isspace`, character by character. */
  datatype CharTable = CharTable(fold: char -> string, alnum: char -> bool, space: char -> bool)

  /** The punctuation that survives in a term: C++, C#, CI/CD, R&D, .NET. */
  predicate Punctuation(c: char) { c in ".+#/&" }

  /** What Unicode guarantees of one character. */
  ghost predicate LawfulChar(u: CharTable, c: char) {
    && (forall d :: d in u.fold(c) ==> u.fold(d) == [d])
    && (u.alnum(c) ==> !u.space(c))
    && (Punctuation(c) ==> !u.space(c) && u.fold(c) == [c])
    && (c in "insufficient" ==> u.alnum(c) && u.fold(c) == [c])
    && (c == ' ' ==> u.space(c) && u.fold(c) == [c])
  }

  ghost predicate Lawful(u: CharTable) {
    forall c :: LawfulChar(u, c)
  }

  function Strip(u: CharTable, s: string): string
    decreases |s|
  {
    if s == "" then ""
    else if u.space(s[0]) then Strip(u, s[1..])
    else if u.space(s[|s| - 1]) then Strip(u, s[..|s| - 1])
    else s
  }

  function Fold(u: CharTable, s: string): string {
    if s == "" then "" else u.fold(s[0]) + Fold(u, s[1..])
  }

  /** Underscores, hyphens and all other punctuation become spaces. */
  function TidyChar(u: CharTable, c: char): char {
    if c == '_' || c == '-' then ' '
    else if u.alnum(c) || u.space(c) || Punctuation(c) then c
    else ' '
  }

  function Tidy(u: CharTable, s: string): (t: string)
    ensures |t| == |s|
  {
    if s == "" then "" else [TidyChar(u, s[0])] + Tidy(u, s[1..])
  }

  /** `s.split()`. */
  function Words(u: CharTable, s: string): (ws: seq<string>)
    ensures s != "" && !u.space(s[0]) ==> ws != []
  {
    if s == "" then []
    else if u.space(s[0]) then Words(u, s[1..])
    else
      var rest := Words(u, s[1..]);
      if s[1..] == "" || u.space(s[1]) then [[s[0]]] + rest
      else [[s[0]] + rest[0]] + rest[1..]
  }

  /** `" ".join(ws)`. */
  function Join(ws: seq<string>): string {
    if ws == [] then "" else if |ws| == 1 then ws[0] else ws[0] + " " + Join(ws[1..])
  }

  function Normalize(u: CharTable, s: string): string {
    Join(Words(u, Tidy(u, Fold(u, Strip(u, s)))))
  }

  function Insufficient(name: string): string { "insufficient " + name }

  predicate IsInsufficient(name: string) { "insufficient " <= name }

  // ----- normal names -----------------------------------------------------------------------

  /** A character that every pass leaves alone. */
  ghost predicate Stable(u: CharTable, c: char) {
    !u.space(c) && u.fold(c) == [c] && TidyChar(u, c) == c
  }

  ghost predicate StableWord(u: CharTable, w: string) {
    w != "" && forall c :: c in w ==> Stable(u, c)
  }

  ghost predicate StableWords(u: CharTable, ws: seq<string>) {
    forall w :: w in ws ==> StableWord(u, w)
  }

  /** Text in which every character folds to itself. */
  ghost predicate Folded(u: CharTable, s: string) {
    forall c :: c in s ==> u.fold(c) == [c]
  }

  lemma {:induction false} FoldIsFolded(u: CharTable, s: string)
    requires Lawful(u)
    ensures Folded(u, Fold(u, s))
  {
    if s != "" {
      assert LawfulChar(u, s[0]);
      FoldIsFolded(u, s[1..]);
    }
  }

  lemma {:induction false} FoldOfFolded(u: CharTable, s: string)
    requires Folded(u, s)
    ensures Fold(u, s) == s
  {
    if s != "" {
      FoldOfFolded(u, s[1..]);
      assert u.fold(s[0]) == [s[0]];
      assert s == [s[0]] + s[1..];
    }
  }

  /** After tidying, what is not a space is stable. */
  lemma {:induction false} TidyIsStable(u: CharTable, s: string)
    requires Lawful(u) && Folded(u, s)
    ensures forall c :: c in Tidy(u, s) && !u.space(c) ==> Stable(u, c)
  {
    if s != "" {
      assert u.fold(s[0]) == [s[0]];
      assert LawfulChar(u, s[0]) && LawfulChar(u, ' ');
      TidyIsStable(u, s[1..]);
    }
  }

  lemma {:induction false} TidyOfTidy(u: CharTable, s: string)
    requires forall c :: c in s ==> TidyChar(u, c) == c
    ensures Tidy(u, s) == s
  {
    if s != "" {
      TidyOfTidy(u, s[1..]);
      assert TidyChar(u, s[0]) == s[0];
      assert s == [s[0]] + s[1..];
    }
  }

  lemma {:induction false} WordsAreStable(u: CharTable, s: string)
    requires forall c :: c in s && !u.space(c) ==> Stable(u, c)
    ensures StableWords(u, Words(u, s))
  {
    if s != "" {
      WordsAreStable(u, s[1..]);
      var rest := Words(u, s[1..]);
      if !u.space(s[0]) && s[1..] != "" && !u.space(s[1]) {
        assert rest[0] in rest && s[1..][0] == s[1];
        assert StableWord(u, [s[0]] + rest[0]);
      }
    }
  }

  /** Splitting off a leading word. */
  lemma {:induction false} WordsOfWord(u: CharTable, w: string, rest: string)
    requires w != "" && (forall c :: c in w ==> !u.space(c))
    requires rest == "" || u.space(rest[0])
    ensures Words(u, w + rest) == [w] + Words(u, rest)
  {
    var s := w + rest;
    assert s[1..] == w[1..] + rest;
    if |w| == 1 {
      assert s[1..] == rest && [s[0]] == w;
    } else {
      WordsOfWord(u, w[1..], rest);
      assert s[1] == w[1] && w == [w[0]] + w[1..];
    }
  }

  lemma {:induction false} WordsOfJoin(u: CharTable, ws: seq<string>)
    requires Lawful(u) && StableWords(u, ws)
    ensures Words(u, Join(ws)) == ws
  {
    assert LawfulChar(u, ' ');
    if ws != [] {
      var rest := if |ws| == 1 then "" else " " + Join(ws[1..]);
      assert Join(ws) == ws[0] + rest;
      assert StableWord(u, ws[0]);
      WordsOfWord(u, ws[0], rest);
      if |ws| > 1 {
        WordsOfJoin(u, ws[1..]);
        assert rest[1..] == Join(ws[1..]);
      }
      assert ws == [ws[0]] + ws[1..];
    }
  }

  lemma {:induction false} JoinIsTidy(u: CharTable, ws: seq<string>)
    requires Lawful(u) && StableWords(u, ws)
    ensures forall c :: c in Join(ws) ==> u.fold(c) == [c] && TidyChar(u, c) == c
    ensures ws != [] ==> Join(ws) != "" && !u.space(Join(ws)[0]) && !u.space(Join(ws)[|Join(ws)| - 1])
  {
    assert LawfulChar(u, ' ');
    if ws != [] {
      assert StableWord(u, ws[0]);
      assert ws[0][0] in ws[0] && ws[0][|ws[0]| - 1] in ws[0];
      if |ws| > 1 {
        JoinIsTidy(u, ws[1..]);
      }
    }
  }

  /** A name made of stable words is its own normal form. */
  lemma NormalizeOfJoin(u: CharTable, ws: seq<string>)
    requires Lawful(u) && StableWords(u, ws)
    ensures Normalize(u, Join(ws)) == Join(ws)
  {
    var s := Join(ws);
    JoinIsTidy(u, ws);
    assert Strip(u, s) == s;
    FoldOfFolded(u, s);
    TidyOfTidy(u, s);
    WordsOfJoin(u, ws);
  }

  /** The words a name is normalised to. */
  function NormalWords(u: CharTable, s: string): seq<string> {
    Words(u, Tidy(u, Fold(u, Strip(u, s))))
  }

  lemma NormalWordsAreStable(u: CharTable, s: string)
    requires Lawful(u)
    ensures StableWords(u, NormalWords(u, s))
  {
    FoldIsFolded(u, Strip(u, s));
    TidyIsStable(u, Fold(u, Strip(u, s)));
    WordsAreStable(u, Tidy(u, Fold(u, Strip(u, s))));
  }

  /** Normalising twice is normalising once. */
  lemma NormalizeIdempotent(u: CharTable, s: string)
    requires Lawful(u)
    ensures Normalize(u, Normalize(u, s)) == Normalize(u, s)
  {
    NormalWordsAreStable(u, s);
    NormalizeOfJoin(u, NormalWords(u, s));
  }

  /** Two spellings of one name, and only they, have the same words. */
  lemma SameNameSameWords(u: CharTable, s: string, t: string)
    requires Lawful(u)
    ensures Normalize(u, s) == Normalize(u, t) <==> NormalWords(u, s) == NormalWords(u, t)
  {
    NormalWordsAreStable(u, s);
    NormalWordsAreStable(u, t);
    WordsOfJoin(u, NormalWords(u, s));
    WordsOfJoin(u, NormalWords(u, t));
  }

  /** Prefixing a normal name with "insufficient" gives a normal name. */
  lemma InsufficientIsNormal(u: CharTable, s: string)
    requires Lawful(u) && Normalize(u, s) != ""
    ensures Normalize(u, Insufficient(Normalize(u, s))) == Insufficient(Normalize(u, s))
  {
    NormalWordsAreStable(u, s);
    var ws := NormalWords(u, s);
    var ws' := ["insufficient"] + ws;
    forall c | c in "insufficient"
      ensures Stable(u, c)
    {
      assert LawfulChar(u, c);
    }
    assert StableWord(u, "insufficient");
    assert ws'[1..] == ws;
    assert Join(ws') == "insufficient" + " " + Join(ws);
    assert Join(ws') == Insufficient(Join(ws));
    NormalizeOfJoin(u, ws');
  }

  /** The laws can be met: the table for ASCII text. */
  const ASCII := CharTable(
    (c: char) => if 'A' <= c <= 'Z' then [((c as int) + 32) as char] else [c],
    (c: char) => 'a' <= c <= 'z' || 'A' <= c <= 'Z' || '0' <= c <= '9',
    (c: char) => c == ' ' || '\t' <= c <= '\r')

  lemma LettersAreLower(c: char)
    requires c in "insufficient"
    ensures 'a' <= c <= 'z'
  {
  }

  lemma AsciiIsLawful()
    ensures Lawful(ASCII)
  {
    forall c: char
      ensures LawfulChar(ASCII, c)
    {
      if c in "insufficient" {
        LettersAreLower(c);
      }
    }
  }

  /** A word of small letters is a normal name. */
  lemma PlainName(name: string)
    requires name != "" && forall c :: c in name ==> 'a' <= c <= 'z'
    ensures Normalize(ASCII, name) == name
  {
    AsciiIsLawful();
    assert Join([name]) == name && StableWord(ASCII, name);
    NormalizeOfJoin(ASCII, [name]);
  }
}

/** The hangman game ("pendu", freeos.py:1010-1052): the hidden word, the set
    of letters tried, the remaining tries and the guess handler that updates
    them. The word is drawn at random by the caller and is a parameter here. */
module Pendu {
  import opened Text

  // ---- sorted() on the letters tried ----

  predicate Ascending(xs: seq<char>)
  {
    forall i, j :: 0 <= i < j < |xs| ==> xs[i] <= xs[j]
  }

  /** c inserted into an ascending sequence. */
  function Insert(c: char, xs: seq<char>): (r: seq<char>)
    requires Ascending(xs)
    ensures Ascending(r) && multiset(r) == multiset(xs) + multiset{c}
  {
    if xs == [] then [c]
    else if c <= xs[0] then [c] + xs
    else
      var rest := Insert(c, xs[1..]);
      HeadStays(c, xs, rest);
      [xs[0]] + rest
  }

  /** The head of xs stays in front when c goes further in. */
  lemma HeadStays(c: char, xs: seq<char>, rest: seq<char>)
    requires Ascending(xs) && xs != [] && xs[0] < c
    requires Ascending(rest) && multiset(rest) == multiset(xs[1..]) + multiset{c}
    ensures Ascending([xs[0]] + rest) && multiset([xs[0]] + rest) == multiset(xs) + multiset{c}
  {
    assert xs == [xs[0]] + xs[1..];
    assert forall j :: 0 <= j < |xs[1..]| ==> xs[0] <= xs[1..][j];
    forall k | 0 <= k < |rest| ensures xs[0] <= rest[k] {
      assert rest[k] in multiset(rest);
      assert rest[k] == c || rest[k] in xs[1..];
    }
    var r := [xs[0]] + rest;
    forall i, j | 0 <= i < j < |r| ensures r[i] <= r[j] {
      if i > 0 {
        assert r[i] == rest[i - 1] && r[j] == rest[j - 1];
      }
    }
  }

  /** sorted(): the same characters in ascending order. */
  function Sorted(xs: seq<char>): (r: seq<char>)
    ensures Ascending(r) && multiset(r) == multiset(xs)
  {
    if xs == [] then []
    else
      assert xs == xs[..|xs| - 1] + [xs[|xs| - 1]];
      Insert(xs[|xs| - 1], Sorted(xs[..|xs| - 1]))
  }

  /** Each character as a one-letter string, ready for str.join. */
  function Letters(cs: seq<char>): (ws: seq<string>)
    ensures |ws| == |cs| && forall i :: 0 <= i < |cs| ==> ws[i] == [cs[i]]
  {
    seq(|cs|, i requires 0 <= i < |cs| => [cs[i]])
  }

  // ---- The round as a value ----

  /** The state of one hangman window. The set of letters tried is listed in
      the order they were first tried, each once. */
  datatype Round = Round(word: string, hidden: seq<char>, tried: seq<char>, tries: int,
                         info: string, notices: seq<string>)

  const StartTries := 8

  /** The word with each letter replaced by '_'. */
  function Mask(word: string): (h: seq<char>)
    ensures |h| == |word|
    ensures forall i :: 0 <= i < |word| ==> h[i] == (if IsAlpha(word[i]) then '_' else word[i])
  {
    seq(|word|, i requires 0 <= i < |word| => if IsAlpha(word[i]) then '_' else word[i])
  }

  /** The label as the window opens. */
  function StartInfo(hidden: seq<char>, tries: int): string
  {
    "Mot : " + Join(Letters(hidden), " ") + "    Restant: " + IntToStr(tries)
  }

  /** update_info(). */
  function InfoLine(hidden: seq<char>, tried: seq<char>, tries: int): string
  {
    "Mot : " + Join(Letters(hidden), " ") + "    Lettres: " + Join(Letters(Sorted(tried)), ", ")
    + "    Restant: " + IntToStr(tries)
  }

  function WonNotice(word: string): string
  {
    "Bravo ! Le mot était '" + word + "'."
  }

  function LostNotice(word: string): string
  {
    "Dommage. Le mot était '" + word + "'."
  }

  /** _game_pendu: the drawn word, lower-cased, with its letters hidden. */
  function Begin(chosen: string): (r: Round)
    ensures Sound(r) && r.tries == StartTries && r.tried == [] && r.notices == []
  {
    var w := Lower(chosen);
    Round(w, Mask(w), [], StartTries, StartInfo(Mask(w), StartTries), [])
  }

  /** No letter is listed twice among those tried, and every hidden cell i
      shows word[i] or is a '_' standing for a letter not tried yet. */
  predicate Sound(r: Round)
  {
    (forall i, j :: 0 <= i < j < |r.tried| ==> r.tried[i] != r.tried[j])
    && |r.hidden| == |r.word|
    && forall i :: 0 <= i < |r.word| ==>
         r.hidden[i] == r.word[i] || (r.hidden[i] == '_' && IsAlpha(r.word[i]) && r.word[i] !in r.tried)
  }

  /** Every occurrence of c in the word is uncovered. */
  function Reveal(word: string, hidden: seq<char>, c: char): (h: seq<char>)
    requires |hidden| == |word|
    ensures |h| == |word|
    ensures forall i :: 0 <= i < |word| ==> h[i] == (if word[i] == c then c else hidden[i])
  {
    seq(|word|, i requires 0 <= i < |word| => if word[i] == c then c else hidden[i])
  }

  /** The hidden cells, the letters tried and the tries after a guess g, before the label is redrawn. */
  function Scored(r: Round, g: string): (s: Round)
    requires |r.hidden| == |r.word| && g != []
  {
    if |g| == 1 then
      if g[0] in r.word then r.(tried := r.tried + [g[0]], hidden := Reveal(r.word, r.hidden, g[0]))
      else r.(tried := r.tried + [g[0]], tries := r.tries - 1)
    else if g == r.word then r.(hidden := r.word)
    else r.(tries := r.tries - 1)
  }

  /** guess() on a round value: the entry is stripped and lower-cased; an empty
      entry or a letter tried before is ignored; otherwise the guess is scored,
      the label redrawn, and a message box announces a found word or, failing
      that, no tries left. */
  function NextRound(r: Round, raw: string): (s: Round)
    requires |r.hidden| == |r.word|
  {
    var g := Lower(Strip(raw));
    if g == [] || (|g| == 1 && g[0] in r.tried) then r
    else
      var t := Scored(r, g);
      var u := t.(info := InfoLine(t.hidden, t.tried, t.tries));
      if '_' !in u.hidden then u.(notices := r.notices + [WonNotice(r.word)])
      else if u.tries <= 0 then u.(notices := r.notices + [LostNotice(r.word)])
      else u
  }

  // ---- Properties of a guess ----

  /** Scoring keeps every hidden cell either uncovered or standing for an untried letter. */
  lemma ScoredKeepsSound(r: Round, g: string)
    requires Sound(r) && g != [] && !(|g| == 1 && g[0] in r.tried)
    ensures Sound(Scored(r, g))
  {
    var t := Scored(r, g);
    forall i | 0 <= i < |r.word|
      ensures t.hidden[i] == t.word[i] || (t.hidden[i] == '_' && IsAlpha(t.word[i]) && t.word[i] !in t.tried)
    {
      if |g| == 1 && t.word[i] == g[0] {
        assert t.hidden[i] == t.word[i];
      }
    }
  }

  lemma GuessKeepsSound(r: Round, raw: string)
    requires Sound(r)
    ensures Sound(NextRound(r, raw))
  {
    var g := Lower(Strip(raw));
    if !(g == [] || (|g| == 1 && g[0] in r.tried)) {
      ScoredKeepsSound(r, g);
    }
  }

  /** Scoring never changes the word, keeps uncovered cells uncovered, adds at
      most the guessed letter to the tried set, and costs one try exactly for
      a letter the word lacks or a wrong whole-word guess. */
  lemma ScoredEffect(r: Round, g: string)
    requires Sound(r) && g != [] && !(|g| == 1 && g[0] in r.tried)
    ensures var t := Scored(r, g);
            t.word == r.word && t.info == r.info && t.notices == r.notices
            && (forall i :: 0 <= i < |r.word| && r.hidden[i] == r.word[i] ==> t.hidden[i] == t.word[i])
            && (t.tried == if |g| == 1 then r.tried + [g[0]] else r.tried)
            && (t.tries == r.tries - 1 <==> (|g| == 1 && g[0] !in r.word) || (|g| > 1 && g != r.word))
            && (t.tries != r.tries - 1 ==> t.tries == r.tries)
  {
  }

  /** A guess never changes the word, keeps uncovered cells uncovered, grows
      the tried set by at most the guessed letter, and drops the tries by one
      exactly for a new letter the word lacks or a wrong whole-word guess. An
      empty or repeated guess changes nothing; any other refreshes the info line
      and announces the win once no cell is hidden, else the loss once no try
      is left. */
  lemma GuessEffect(r: Round, raw: string)
    requires Sound(r)
    ensures var s := NextRound(r, raw);
            var g := Lower(Strip(raw));
            s.word == r.word
            && (forall i :: 0 <= i < |r.word| && r.hidden[i] == r.word[i] ==> s.hidden[i] == s.word[i])
            && r.tried <= s.tried
            && (s.tried == r.tried || (|g| == 1 && s.tried == r.tried + [g[0]] && g[0] !in r.tried))
            && (s.tries == r.tries - 1 <==>
                  (|g| == 1 && g[0] !in r.tried && g[0] !in r.word) || (|g| > 1 && g != r.word))
            && (s.tries != r.tries - 1 ==> s.tries == r.tries)
  ensures var s := NextRound(r, raw);
          var g := Lower(Strip(raw));
          if g == [] || (|g| == 1 && g[0] in r.tried) then s == r
          else s.info == InfoLine(s.hidden, s.tried, s.tries)
               && s.notices == r.notices + (if '_' !in s.hidden then [WonNotice(r.word)]
                                            else if s.tries <= 0 then [LostNotice(r.word)]
                                            else [])
  {
    var g := Lower(Strip(raw));
    if !(g == [] || (|g| == 1 && g[0] in r.tried)) {
      ScoredEffect(r, g);
    }
  }

  /** Typing a letter again, or nothing, changes nothing at all. */
  lemma RepeatIsIgnored(r: Round, raw: string)
    requires |r.hidden| == |r.word|
    requires Lower(Strip(raw)) == [] || (|Lower(Strip(raw))| == 1 && Lower(Strip(raw))[0] in r.tried)
    ensures NextRound(r, raw) == r
  {
  }

  /** A correct whole-word guess uncovers every cell and announces the win. */
  lemma WordGuessWins(r: Round, raw: string)
    requires Sound(r) && |r.word| > 1 && Lower(Strip(raw)) == r.word && '_' !in r.word
    ensures NextRound(r, raw).hidden == r.word
    ensures NextRound(r, raw).notices == r.notices + [WonNotice(r.word)]
  {
  }

  /** For a word without '_', no '_' is left exactly when the whole word is shown. */
  lemma WonMeansUncovered(r: Round)
    requires Sound(r) && '_' !in r.word
    ensures '_' !in r.hidden <==> r.hidden == r.word
  {
    if '_' !in r.hidden {
      forall i | 0 <= i < |r.word| ensures r.hidden[i] == r.word[i] {
        assert r.hidden[i] in r.hidden;
      }
    }
  }

  // ---- The window ----

  /** The hangman window: the hidden cells are a list the guesses overwrite in place. */
  class Window {
    const word: string
    var hidden: seq<char>
    var tried: seq<char>
    var tries: int
    var info: string
    var notices: seq<string>

    ghost function State(): Round
      reads this
    {
      Round(word, hidden, tried, tries, info, notices)
    }

    constructor(chosen: string)
      ensures State() == Begin(chosen)
    {
      word := Lower(chosen);
      hidden := Mask(Lower(chosen));
      tried := [];
      tries := StartTries;
      info := StartInfo(Mask(Lower(chosen)), StartTries);
      notices := [];
    }

    /** `for i, ch in enumerate(word): if ch == g: hidden[i] = g` */
    method RevealLetter(c: char)
      requires |hidden| == |word|
      modifies this`hidden
      ensures hidden == Reveal(word, old(hidden), c)
    {
      var i := 0;
      while i < |word|
        invariant 0 <= i <= |word| && |hidden| == |word|
        invariant forall j :: 0 <= j < i ==> hidden[j] == (if word[j] == c then c else old(hidden)[j])
        invariant forall j :: i <= j < |word| ==> hidden[j] == old(hidden)[j]
      {
        if word[i] == c {
          hidden := hidden[i := c];
        }
        i := i + 1;
      }
    }

    /** `for i, ch in enumerate(word): hidden[i] = ch` */
    method RevealAll()
      requires |hidden| == |word|
      modifies this`hidden
      ensures hidden == word
    {
      var i := 0;
      while i < |word|
        invariant 0 <= i <= |word| && |hidden| == |word|
        invariant hidden[..i] == word[..i]
      {
        hidden := hidden[i := word[i]];
        assert hidden[..i + 1] == hidden[..i] + [word[i]];
        i := i + 1;
      }
    }

    /** The branch of guess() that scores a new guess. */
    method Score(g: string)
      requires |hidden| == |word| && g != []
      modifies this`hidden, this`tried, this`tries
      ensures State() == Scored(old(State()), g)
    {
      if |g| == 1 {
        tried := tried + [g[0]];
        if g[0] in word {
          RevealLetter(g[0]);
        } else {
          tries := tries - 1;
        }
      } else {
        if g == word {
          RevealAll();
        } else {
          tries := tries - 1;
        }
      }
    }

    /** guess(): reads the entry and updates the round. */
    method Guess(raw: string)
      requires |hidden| == |word|
      modifies this
      ensures State() == NextRound(old(State()), raw)
    {
      var g := Lower(Strip(raw));
      if g == [] || (|g| == 1 && g[0] in tried) {
        return;
      }
      Score(g);
      info := InfoLine(hidden, tried, tries);
      if '_' !in hidden {
        notices := notices + [WonNotice(word)];
      } else if tries <= 0 {
        notices := notices + [LostNotice(word)];
      }
    }
  }
}

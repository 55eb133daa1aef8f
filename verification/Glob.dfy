/** The wildcard matcher of vlog_is_on.cc against what `*` and `?` mean. */
module Glob {

  /** The meaning: `*` stands for any text, `?` for any character, any other for itself. */
  ghost predicate Matches(pattern: string, text: string)
    decreases |pattern|
  {
    if pattern == [] then text == []
    else if pattern[0] == '*' then exists i :: 0 <= i <= |text| && Matches(pattern[1..], text[i..])
    else text != [] && (pattern[0] == '?' || pattern[0] == text[0]) && Matches(pattern[1..], text[1..])
  }

  /** What SafeFNMatch_ computes: a character that equals the pattern's, even a `*`, is taken before a
      `*` is treated as one; and behind a `*` only non-empty rests of the text are tried. */
  predicate FnMatch(pattern: string, text: string)
    decreases |pattern|
  {
    if pattern == [] then text == []
    else if text == [] then pattern == "*"
    else if pattern[0] == text[0] || pattern[0] == '?' then FnMatch(pattern[1..], text[1..])
    else pattern[0] == '*' && (|pattern| == 1 || exists i :: 0 <= i < |text| && FnMatch(pattern[1..], text[i..]))
  }

  /** SafeFNMatch_. */
  method SafeFNMatch(pattern: string, text: string) returns (r: bool)
    ensures r == FnMatch(pattern, text)
    decreases |pattern|, 0
  {
    var p, s := 0, 0;
    while true
      invariant 0 <= p <= |pattern| && 0 <= s <= |text|
      invariant FnMatch(pattern[p..], text[s..]) == FnMatch(pattern, text)
      decreases |pattern| - p
    {
      if p == |pattern| && s == |text| {
        return true;
      }
      if p == |pattern| {
        return false;
      }
      if s == |text| {
        assert pattern[p..] == "*" <==> p + 1 == |pattern| && pattern[p] == '*';
        return p + 1 == |pattern| && pattern[p] == '*';
      }
      var q, t := pattern[p..], text[s..];
      assert q[1..] == pattern[p + 1..] && t[1..] == text[s + 1..];
      if pattern[p] == text[s] || pattern[p] == '?' {
        p := p + 1;
        s := s + 1;
        continue;
      }
      if pattern[p] == '*' {
        if p + 1 == |pattern| {
          return true;
        }
        r := TryRests(pattern[p + 1..], text[s..]);
        return;
      }
      return false;
    }
  }

  /** The inner loop: the rest of the pattern against each non-empty rest of the text. */
  method TryRests(pattern: string, text: string) returns (r: bool)
    requires text != []
    ensures r == exists i :: 0 <= i < |text| && FnMatch(pattern, text[i..])
    decreases |pattern|, 1
  {
    var s := 0;
    while s != |text|
      invariant 0 <= s <= |text| && forall i :: 0 <= i < s ==> !FnMatch(pattern, text[i..])
      decreases |text| - s
    {
      var matched := SafeFNMatch(pattern, text[s..]);
      if matched {
        return true;
      }
      s := s + 1;
    }
    return false;
  }

  /** A match that is found is one, for every pattern and text. */
  lemma {:induction false} Sound(pattern: string, text: string)
    requires FnMatch(pattern, text)
    ensures Matches(pattern, text)
    decreases |pattern|
  {
    if pattern != [] {
      if text == [] {
        assert Matches("", text[0..]) && pattern[1..] == "";
      } else if pattern[0] == text[0] || pattern[0] == '?' {
        Sound(pattern[1..], text[1..]);
      } else if |pattern| == 1 {
        assert pattern[1..] == "" && Matches("", text[|text|..]);
      } else {
        var i :| 0 <= i < |text| && FnMatch(pattern[1..], text[i..]);
        Sound(pattern[1..], text[i..]);
      }
    }
  }

  /** Two stars at the end of the pattern. */
  predicate EndsInTwoStars(pattern: string) {
    |pattern| >= 2 && pattern[|pattern| - 1] == '*' && pattern[|pattern| - 2] == '*'
  }

  /** Only stars match the empty text. */
  lemma {:induction false} MatchesEmpty(pattern: string)
    requires Matches(pattern, [])
    ensures forall k :: 0 <= k < |pattern| ==> pattern[k] == '*'
  {
    if pattern != [] {
      var i :| 0 <= i <= 0 && Matches(pattern[1..], ""[i..]);
      MatchesEmpty(pattern[1..]);
      forall k | 0 <= k < |pattern|
        ensures pattern[k] == '*'
      {
        if k > 0 {
          assert pattern[k] == pattern[1..][k - 1];
        }
      }
    }
  }

  lemma StarsOnly(pattern: string)
    requires |pattern| > 1 && pattern[0] == '*' && forall k :: 0 <= k < |pattern| - 1 ==> pattern[1..][k] == '*'
    ensures EndsInTwoStars(pattern)
  {
    var n := |pattern|;
    assert pattern[1..][n - 2] == pattern[n - 1];
    assert n > 2 ==> pattern[1..][n - 3] == pattern[n - 2];
  }

  /** On texts without `*`, every match is found, unless the pattern ends in two stars. */
  lemma {:induction false} Complete(pattern: string, text: string)
    requires Matches(pattern, text) && '*' !in text && !EndsInTwoStars(pattern)
    ensures FnMatch(pattern, text)
    decreases |pattern|
  {
    if pattern != [] {
      var rest := pattern[1..];
      assert !EndsInTwoStars(rest);
      if text == [] {
        MatchesEmpty(pattern);
        assert |pattern| == 1;
      } else if pattern[0] == '*' {
        if |pattern| > 1 {
          var i :| 0 <= i <= |text| && Matches(rest, text[i..]);
          if i == |text| {
            MatchesEmpty(rest);
            StarsOnly(pattern);
          } else {
            Complete(rest, text[i..]);
          }
        }
      } else {
        Complete(rest, text[1..]);
      }
    }
  }

  // ---------------------------------------------------------------- two stars at the end

  /** How many characters of the pattern are not stars. */
  function Plain(pattern: string): nat {
    if pattern == [] then 0 else Plain(pattern[1..]) + if pattern[0] == '*' then 0 else 1
  }

  /** The shortest text of a pattern: its plain characters, with an `a` for each `?`. */
  function Shortest(pattern: string): string {
    if pattern == [] then []
    else (if pattern[0] == '*' then [] else if pattern[0] == '?' then "a" else [pattern[0]]) + Shortest(pattern[1..])
  }

  lemma {:induction false} ShortestMatches(pattern: string)
    ensures Matches(pattern, Shortest(pattern)) && '*' !in Shortest(pattern) && |Shortest(pattern)| == Plain(pattern)
  {
    if pattern != [] {
      ShortestMatches(pattern[1..]);
      var t := Shortest(pattern);
      if pattern[0] == '*' {
        assert t == Shortest(pattern[1..]) && t[0..] == t;
      } else {
        assert t[1..] == Shortest(pattern[1..]);
      }
    }
  }

  /** A text that is found to match a pattern with two stars at its end is longer than it has to be. */
  lemma {:induction false} TwoStarsNeedMore(pattern: string, text: string)
    requires EndsInTwoStars(pattern) && FnMatch(pattern, text)
    ensures |text| > Plain(pattern)
    decreases |pattern|
  {
    var rest := pattern[1..];
    if |pattern| > 2 {
      assert EndsInTwoStars(rest);
      if pattern[0] == text[0] || pattern[0] == '?' {
        TwoStarsNeedMore(rest, text[1..]);
      } else {
        var i :| 0 <= i < |text| && FnMatch(rest, text[i..]);
        TwoStarsNeedMore(rest, text[i..]);
      }
    } else {
      assert pattern == "**" && rest == "*" && Plain(rest) == Plain(rest[1..]) && rest[1..] == "";
    }
  }

  /** The matcher is exact on all texts without `*` if and only if the pattern does not end in two
      stars; with two stars at the end it misses the shortest text that matches. */
  lemma ExactIff(pattern: string)
    ensures (forall text: string :: '*' !in text ==> (FnMatch(pattern, text) <==> Matches(pattern, text)))
            <==> !EndsInTwoStars(pattern)
    ensures EndsInTwoStars(pattern) ==>
              Matches(pattern, Shortest(pattern)) && !FnMatch(pattern, Shortest(pattern))
  {
    hide FnMatch, Matches;
    if EndsInTwoStars(pattern) {
      ShortestMatches(pattern);
      if FnMatch(pattern, Shortest(pattern)) {
        TwoStarsNeedMore(pattern, Shortest(pattern));
      }
    } else {
      forall text: string | '*' !in text
        ensures FnMatch(pattern, text) <==> Matches(pattern, text)
      {
        if FnMatch(pattern, text) {
          Sound(pattern, text);
        }
        if Matches(pattern, text) {
          Complete(pattern, text);
        }
      }
    }
  }
}

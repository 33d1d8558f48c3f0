/**
 * Scoring a spoken word against its target. Real arithmetic stands for the floating-point numbers;
 * `lower` stands for lower-casing.
 */
module Pronunciation {
  import opened Prelude
  import opened Levenshtein

  // ----- Normalizing

  /** `\w` */
  predicate IsWordChar(c: char) {
    'a' <= c <= 'z' || 'A' <= c <= 'Z' || '0' <= c <= '9' || c == '_'
  }

  /** `\s`, which is also what `trim` removes */
  predicate IsSpace(c: char) {
    var n := c as int;
    || 9 <= n <= 13 || n == 0x20 || n == 0xA0 || n == 0x1680 || 0x2000 <= n <= 0x200A || n == 0x2028 || n == 0x2029
    || n == 0x202F || n == 0x205F || n == 0x3000 || n == 0xFEFF
  }

  /** `.replace(/[^\w\s]/g, '')` */
  function Kept(s: string): (r: string)
    ensures forall c :: c in r <==> c in s && (IsWordChar(c) || IsSpace(c))
  {
    if s == "" then ""
    else
      assert s == [s[0]] + s[1..];
      (if IsWordChar(s[0]) || IsSpace(s[0]) then [s[0]] else "") + Kept(s[1..])
  }

  predicate AllSpace(s: string) {
    forall c :: c in s ==> IsSpace(c)
  }

  /** From the first character that is no space. */
  function TrimStart(s: string): (r: string)
    ensures |r| <= |s| && r == s[|s| - |r|..] && AllSpace(s[..|s| - |r|])
    ensures r != "" ==> !IsSpace(r[0])
    decreases |s|
  {
    if s != "" && IsSpace(s[0]) then
      var r := TrimStart(s[1..]);
      assert s[..|s| - |r|] == [s[0]] + s[1..][..|s[1..]| - |r|];
      r
    else s
  }

  /** Up to the last character that is no space. */
  function TrimEnd(s: string): (r: string)
    ensures |r| <= |s| && r == s[..|r|] && AllSpace(s[|r|..])
    ensures r != "" ==> !IsSpace(r[|r| - 1])
    decreases |s|
  {
    if s != "" && IsSpace(s[|s| - 1]) then
      var n := |s| - 1;
      var r := TrimEnd(s[..n]);
      assert s[|r|..] == s[..n][|r|..] + [s[n]];
      r
    else s
  }

  /** `.trim()` */
  function Trim(s: string): string {
    TrimEnd(TrimStart(s))
  }

  lemma TrimsAll(s: string)
    ensures Trim(s) == "" <==> AllSpace(s)
  {
    var t := TrimStart(s);
    if Trim(s) == "" {
      assert t[0..] == t && s == s[..|s| - |t|] + t;
      forall c | c in s ensures IsSpace(c) {
        assert c in s[..|s| - |t|] || c in t;
      }
    }
    if t != "" { StartsVisibly(s); }
  }

  lemma StartsVisibly(s: string)
    requires TrimStart(s) != ""
    ensures !AllSpace(s)
  {
    var t := TrimStart(s);
    assert t[0] == s[|s| - |t|];
  }

  function Normalized(s: string, lower: string -> string): string {
    Trim(Kept(lower(s)))
  }

  predicate HasWordChar(s: string) {
    exists c :: c in s && IsWordChar(c)
  }

  /** Nothing is left exactly of a text without Latin letters of ASCII, digits or underscores. */
  lemma NothingLeft(s: string, lower: string -> string)
    ensures Normalized(s, lower) == "" <==> !HasWordChar(lower(s))
  {
    TrimsAll(Kept(lower(s)));
    assert forall c :: IsWordChar(c) ==> !IsSpace(c);
    assert forall c :: c in lower(s) && IsWordChar(c) ==> c in Kept(lower(s));
  }

  // ----- Spelling variants that sound alike

  datatype Rule = PhToF | FinalCk | DoubleL | DoubleS | DoubleT | HardC

  const RULES: seq<Rule> := [PhToF, FinalCk, DoubleL, DoubleS, DoubleT, HardC]

  predicate PairAt(word: string, x: char, y: char, i: nat) {
    i + 1 < |word| && word[i] == x && word[i + 1] == y
  }

  predicate HasPair(word: string, x: char, y: char) {
    exists i :: 0 <= i < |word| && PairAt(word, x, y, i)
  }

  lemma LaterPairs(word: string, x: char, y: char)
    requires word != [] && !PairAt(word, x, y, 0)
    ensures HasPair(word, x, y) <==> HasPair(word[1..], x, y)
  {
    if HasPair(word, x, y) {
      var i :| 0 <= i < |word| && PairAt(word, x, y, i);
      assert PairAt(word[1..], x, y, i - 1);
    }
    if HasPair(word[1..], x, y) {
      var i :| 0 <= i < |word[1..]| && PairAt(word[1..], x, y, i);
      assert PairAt(word, x, y, i + 1);
    }
  }

  /** Every occurrence of a pair becomes one character, from left to right. */
  function ReplacePairs(word: string, x: char, y: char, sound: char): (r: string)
    ensures |word| / 2 <= |r| <= |word|
    ensures r == word <==> !HasPair(word, x, y)
    decreases |word|
  {
    if |word| < 2 then word
    else if word[0] == x && word[1] == y then
      assert PairAt(word, x, y, 0);
      [sound] + ReplacePairs(word[2..], x, y, sound)
    else
      assert HasPair(word, x, y) <==> HasPair(word[1..], x, y) by { LaterPairs(word, x, y); }
      assert word == [word[0]] + word[1..];
      [word[0]] + ReplacePairs(word[1..], x, y, sound)
  }

  predicate HardAt(word: string, i: nat) {
    i + 1 < |word| && word[i] == 'c' && word[i + 1] in {'a', 'o', 'u'}
  }

  /** `pattern.test(word)` */
  predicate Matches(rule: Rule, word: string) {
    match rule
    case PhToF => HasPair(word, 'p', 'h')
    case FinalCk => |word| >= 2 && word[|word| - 2..] == "ck"
    case DoubleL => HasPair(word, 'l', 'l')
    case DoubleS => HasPair(word, 's', 's')
    case DoubleT => HasPair(word, 't', 't')
    case HardC => exists i :: 0 <= i < |word| && HardAt(word, i)
  }

  /** `word.replace(pattern, replacement)` */
  function Replaced(rule: Rule, word: string): string {
    match rule
    case PhToF => ReplacePairs(word, 'p', 'h', 'f')
    case FinalCk => if Matches(FinalCk, word) then word[..|word| - 2] + "k" else word
    case DoubleL => ReplacePairs(word, 'l', 'l', 'l')
    case DoubleS => ReplacePairs(word, 's', 's', 's')
    case DoubleT => ReplacePairs(word, 't', 't', 't')
    case HardC => seq(|word|, i requires 0 <= i < |word| => if HardAt(word, i) then 'k' else word[i])
  }

  /** A rule changes exactly the words it matches, so the comparison with the word is never needed. */
  lemma ChangesWhatItMatches(rule: Rule, word: string)
    ensures Matches(rule, word) <==> Replaced(rule, word) != word
  {
    match rule
    case FinalCk => assert Matches(rule, word) ==> |Replaced(rule, word)| == |word| - 1;
    case HardC =>
      if Matches(rule, word) {
        var i :| 0 <= i < |word| && HardAt(word, i);
        assert Replaced(rule, word)[i] == 'k';
      }
    case _ =>
  }

  /** The first occurrence of a pair is at `i`. */
  ghost predicate FirstPair(word: string, x: char, y: char, i: nat) {
    PairAt(word, x, y, i) && forall j :: 0 <= j < i ==> !PairAt(word, x, y, j)
  }

  /** What stands before the first occurrence stays, the occurrence becomes one character, and so on after it. */
  lemma {:induction false} ReplacesFirst(word: string, x: char, y: char, sound: char, i: nat)
    requires FirstPair(word, x, y, i)
    ensures ReplacePairs(word, x, y, sound) == word[..i] + [sound] + ReplacePairs(word[i + 2..], x, y, sound)
    decreases |word|
  {
    if i == 0 {
      assert word[..0] + [sound] == [sound];
    } else {
      FirstPairLater(word, x, y, i);
      KeepsHead(word, x, y, sound);
      ReplacesFirst(word[1..], x, y, sound, i - 1);
      AroundFirst(word, i, [sound], ReplacePairs(word[i + 2..], x, y, sound));
    }
  }

  /** The same pieces, seen from the second character. */
  lemma AroundFirst(word: string, i: nat, sound: string, rest: string)
    requires 0 < i && i + 2 <= |word|
    ensures word[1..][i - 1 + 2..] == word[i + 2..]
    ensures [word[0]] + (word[1..][..i - 1] + sound + rest) == word[..i] + sound + rest
  {
    var head := word[1..][..i - 1];
    assert word[..i] == [word[0]] + head;
    assert [word[0]] + (head + sound + rest) == [word[0]] + head + sound + rest;
  }

  lemma KeepsHead(word: string, x: char, y: char, sound: char)
    requires |word| >= 2 && !PairAt(word, x, y, 0)
    ensures ReplacePairs(word, x, y, sound) == [word[0]] + ReplacePairs(word[1..], x, y, sound)
  {
  }

  lemma FirstPairLater(word: string, x: char, y: char, i: nat)
    requires FirstPair(word, x, y, i) && i > 0
    ensures !PairAt(word, x, y, 0) && FirstPair(word[1..], x, y, i - 1)
  {
    assert PairAt(word[1..], x, y, i - 1);
    forall j | 0 <= j < i - 1 ensures !PairAt(word[1..], x, y, j) {
      assert !PairAt(word, x, y, j + 1);
    }
  }

  /** What each rule writes: at the first occurrence of its pair, at the end of the word, or at each hard `c`. */
  lemma WritesWhatItHears(word: string, i: nat)
    ensures FirstPair(word, 'p', 'h', i) ==>
              Replaced(PhToF, word) == word[..i] + "f" + Replaced(PhToF, word[i + 2..])
    ensures FirstPair(word, 'l', 'l', i) ==>
              Replaced(DoubleL, word) == word[..i] + "l" + Replaced(DoubleL, word[i + 2..])
    ensures FirstPair(word, 's', 's', i) ==>
              Replaced(DoubleS, word) == word[..i] + "s" + Replaced(DoubleS, word[i + 2..])
    ensures FirstPair(word, 't', 't', i) ==>
              Replaced(DoubleT, word) == word[..i] + "t" + Replaced(DoubleT, word[i + 2..])
    ensures Replaced(FinalCk, word + "ck") == word + "k"
    ensures |Replaced(HardC, word)| == |word|
    ensures i < |word| ==>
              Replaced(HardC, word)[i]
              == if i + 1 < |word| && word[i] == 'c' && (word[i + 1] == 'a' || word[i + 1] == 'o' || word[i + 1] == 'u')
                 then 'k' else word[i]
  {
    if FirstPair(word, 'p', 'h', i) { ReplacesFirst(word, 'p', 'h', 'f', i); }
    if FirstPair(word, 'l', 'l', i) { ReplacesFirst(word, 'l', 'l', 'l', i); }
    if FirstPair(word, 's', 's', i) { ReplacesFirst(word, 's', 's', 's', i); }
    if FirstPair(word, 't', 't', i) { ReplacesFirst(word, 't', 't', 't', i); }
    assert (word + "ck")[..|word + "ck"| - 2] == word;
  }

  /** The word itself first, then what each matching rule makes of it, without repetition. */
  method GetPhoneticVariants(word: string) returns (variants: seq<string>)
    ensures variants != [] && variants[0] == word
    ensures forall v :: v in variants <==> v == word || exists rule :: Matches(rule, word) && v == Replaced(rule, word)
    ensures forall i, j :: 0 <= i < j < |variants| ==> variants[i] != variants[j]
  {
    variants := [word];
    for k := 0 to |RULES|
      invariant variants != [] && variants[0] == word
      invariant forall v :: v in variants <==>
                  v == word || exists l :: 0 <= l < k && Matches(RULES[l], word) && v == Replaced(RULES[l], word)
      invariant forall i, j :: 0 <= i < j < |variants| ==> variants[i] != variants[j]
    {
      var rule := RULES[k];
      if Matches(rule, word) {
        var variant := Replaced(rule, word);
        ChangesWhatItMatches(rule, word);
        if variant != word && variant !in variants {
          variants := variants + [variant];
        }
      }
    }
    forall v | v != word && exists rule :: Matches(rule, word) && v == Replaced(rule, word) ensures v in variants {
      var rule :| Matches(rule, word) && v == Replaced(rule, word);
      EveryRule(rule);
    }
  }

  lemma EveryRule(rule: Rule)
    ensures rule in RULES
  {
    match rule
    case PhToF => assert RULES[0] == rule;
    case FinalCk => assert RULES[1] == rule;
    case DoubleL => assert RULES[2] == rule;
    case DoubleS => assert RULES[3] == rule;
    case DoubleT => assert RULES[4] == rule;
    case HardC => assert RULES[5] == rule;
  }

  ghost predicate SoundsLike(spoken: string, target: string) {
    spoken == target || exists rule :: Matches(rule, target) && spoken == Replaced(rule, target)
  }

  // ----- The score

  /** `Math.round`: halves go up. */
  function Round(x: real): (r: int)
    ensures x - 0.5 < r as real <= x + 0.5
  {
    (x + 0.5).Floor
  }

  function Least(x: real, y: real): real { if x < y then x else y }

  function Greatest(x: real, y: real): real { if x < y then y else x }

  predicate OccursAt(s: string, part: string, i: nat) {
    i + |part| <= |s| && s[i..i + |part|] == part
  }

  predicate Includes(s: string, part: string) {
    exists i :: 0 <= i <= |s| && OccursAt(s, part, i)
  }

  predicate SameStart(s: string, t: string)
    requires |s| > 2 && |t| > 2
  {
    s[..2] == t[..2]
  }

  predicate SameEnd(s: string, t: string)
    requires |s| > 2 && |t| > 2
  {
    s[|s| - 2..] == t[|t| - 2..]
  }

  /** Part of the score that does not depend on the confidence, for words that are only similar. */
  function BaseAccuracy(s: string, t: string): real
    requires s != [] || t != []
  {
    var similarity := Similarity(s, t);
    var bonus := if similarity >= 0.5 && |s| > 2 && |t| > 2 && (SameStart(s, t) || SameEnd(s, t)) then 5.0 else 0.0;
    var lengthRatio := 1.0 - Ratio(Max(|s| - |t|, |t| - |s|), Max(|s|, |t|));
    (similarity * 70.0 + bonus) * if lengthRatio < 0.7 then 0.7 else 1.0
  }

  /** The score of two normalized strings. */
  ghost function Accuracy(s: string, t: string, confidence: real): real {
    if s == t then Least(95.0 + confidence * 5.0, 100.0)
    else if Includes(s, t) || Includes(t, s) then Round(Least(75.0 + confidence * 15.0, 85.0)) as real
    else if Similarity(s, t) < 0.6 then Greatest(10.0, Round(Similarity(s, t) * 30.0) as real)
    else if Similarity(s, t) >= 0.7 && SoundsLike(s, t) then Least(80.0 + confidence * 10.0, 90.0)
    else
      var capped := Least(BaseAccuracy(s, t) + confidence * 10.0, 75.0);
      Round(Greatest(capped, if |s| > 0 && Similarity(s, t) >= 0.3 then 15.0 else 5.0)) as real
  }

  /** The loop over the variants of the target. */
  method MatchesVariant(spoken: string, target: string) returns (matches: bool)
    ensures matches == SoundsLike(spoken, target)
  {
    var variants := GetPhoneticVariants(target);
    for i := 0 to |variants|
      invariant forall k :: 0 <= k < i ==> spoken != variants[k]
    {
      if spoken == variants[i] {
        assert spoken in variants;
        return true;
      }
    }
    assert spoken !in variants;
    return false;
  }

  method CalculatePronunciationAccuracy(spoken: string, target: string, confidence: real, lower: string -> string)
    returns (score: real)
    ensures score == Accuracy(Normalized(spoken, lower), Normalized(target, lower), confidence)
  {
    score := Score(Normalized(spoken, lower), Normalized(target, lower), confidence);
  }

  /** The score once both texts are normalized. */
  method Score(normalizedSpoken: string, normalizedTarget: string, confidence: real) returns (score: real)
    ensures score == Accuracy(normalizedSpoken, normalizedTarget, confidence)
  {
    if normalizedSpoken == normalizedTarget { return Least(95.0 + confidence * 5.0, 100.0); }
    if Includes(normalizedSpoken, normalizedTarget) || Includes(normalizedTarget, normalizedSpoken) {
      return Round(Least(75.0 + confidence * 15.0, 85.0)) as real;
    }
    var similarity := CalculateLevenshteinSimilarity(normalizedSpoken, normalizedTarget);
    if similarity < 0.6 { return Greatest(10.0, Round(similarity * 30.0) as real); }
    if similarity >= 0.7 {
      var alike := MatchesVariant(normalizedSpoken, normalizedTarget);
      if alike { return Least(80.0 + confidence * 10.0, 90.0); }
    }
    var baseAccuracy := similarity * 70.0;
    if similarity >= 0.5 && |normalizedSpoken| > 2 && |normalizedTarget| > 2 {
      if SameStart(normalizedSpoken, normalizedTarget) || SameEnd(normalizedSpoken, normalizedTarget) {
        baseAccuracy := baseAccuracy + 5.0;
      }
    }
    var lengthDifference := Max(|normalizedSpoken| - |normalizedTarget|, |normalizedTarget| - |normalizedSpoken|);
    var maxLength := Max(|normalizedSpoken|, |normalizedTarget|);
    if 1.0 - Ratio(lengthDifference, maxLength) < 0.7 { baseAccuracy := baseAccuracy * 0.7; }
    var finalAccuracy := Least(baseAccuracy + confidence * 10.0, 75.0);
    if |normalizedSpoken| > 0 && similarity >= 0.3 {
      finalAccuracy := Greatest(finalAccuracy, 15.0);
    } else {
      finalAccuracy := Greatest(finalAccuracy, 5.0);
    }
    return Round(finalAccuracy) as real;
  }

  // ----- What the score says

  predicate Likely(confidence: real) {
    0.0 <= confidence <= 1.0
  }

  /** 0.6 of similarity is worth at least 29.4 points before confidence, even with very different lengths. */
  lemma BaseRange(s: string, t: string)
    requires (s != [] || t != []) && 0.6 <= Similarity(s, t) <= 1.0
    ensures 29.4 <= BaseAccuracy(s, t) <= 75.0
  {
  }

  /** One band for each of the five cases; the floors of 15 and 5 at the end are never needed. */
  lemma ScoreBands(s: string, t: string, confidence: real)
    requires Likely(confidence)
    ensures var score := Accuracy(s, t, confidence);
            && (s == t ==> 95.0 <= score <= 100.0)
            && (s != t && (Includes(s, t) || Includes(t, s)) ==> 75.0 <= score <= 85.0)
            && (s != t && !Includes(s, t) && !Includes(t, s) ==>
                  && (Similarity(s, t) < 0.6 ==> 10.0 <= score <= 18.0)
                  && (Similarity(s, t) >= 0.7 && SoundsLike(s, t) ==> 80.0 <= score <= 90.0)
                  && (Similarity(s, t) >= 0.6 && !(Similarity(s, t) >= 0.7 && SoundsLike(s, t)) ==>
                      29.0 <= score <= 75.0))
  {
    if s != t && !Includes(s, t) && !Includes(t, s) {
      if Similarity(s, t) < 0.6 {
        LowBand(s, t);
      } else if !(Similarity(s, t) >= 0.7 && SoundsLike(s, t)) {
        MiddleBand(s, t, confidence);
      }
    }
  }

  lemma LowBand(s: string, t: string)
    requires Similarity(s, t) < 0.6
    ensures 10.0 <= Greatest(10.0, Round(Similarity(s, t) * 30.0) as real) <= 18.0
  {
  }

  lemma MiddleBand(s: string, t: string, confidence: real)
    requires Likely(confidence) && s != t && Similarity(s, t) >= 0.6
    ensures var capped := Least(BaseAccuracy(s, t) + confidence * 10.0, 75.0);
            29.4 <= capped <= 75.0 && forall floor :: floor <= 15.0 ==> 29 <= Round(Greatest(capped, floor)) <= 75
  {
    SimilarityRange(s, t);
    BaseRange(s, t);
  }

  /** Between 10 and 100; at least 95 exactly for equal strings, at most 90 for all others. */
  lemma ScoreMeansEqual(s: string, t: string, confidence: real)
    requires Likely(confidence)
    ensures 10.0 <= Accuracy(s, t, confidence) <= 100.0
    ensures Accuracy(s, t, confidence) >= 95.0 <==> s == t
    ensures s != t ==> Accuracy(s, t, confidence) <= 90.0
  {
    ScoreBands(s, t, confidence);
  }

  /** The score is the nearest integer. */
  predicate Near(score: real, x: real) {
    x - 0.5 < score <= x + 0.5
  }

  /** How the score grows with the confidence, case by case. */
  lemma ConfidenceAdds(s: string, t: string, confidence: real)
    requires Likely(confidence)
    ensures var score := Accuracy(s, t, confidence);
            && (s == t ==> score == 95.0 + 5.0 * confidence)
            && (s != t && (Includes(s, t) || Includes(t, s)) ==>
                  if confidence * 15.0 <= 10.0 then Near(score, 75.0 + 15.0 * confidence) else score == 85.0)
            && (s != t && !Includes(s, t) && !Includes(t, s) ==>
                  && (Similarity(s, t) < 0.6 ==>
                        if Similarity(s, t) * 30.0 <= 10.0 then score == 10.0 else Near(score, 30.0 * Similarity(s, t)))
                  && (Similarity(s, t) >= 0.7 && SoundsLike(s, t) ==> score == 80.0 + 10.0 * confidence))
  {
  }

  /** What similar words score: points for the similarity, fewer when the lengths differ much. */
  lemma SimilarWords(s: string, t: string, confidence: real)
    requires Likely(confidence) && s != t && !Includes(s, t) && !Includes(t, s) && Similarity(s, t) >= 0.6
    requires !(Similarity(s, t) >= 0.7 && SoundsLike(s, t)) && |s| > 2 && |t| > 2
    ensures var longer, shorter := Max(|s|, |t|), Min(|s|, |t|);
            var ends := s[..2] == t[..2] || s[|s| - 2..] == t[|t| - 2..];
            var points := 70.0 * Similarity(s, t) + if ends then 5.0 else 0.0;
            var kept := if 10 * shorter < 7 * longer then 0.7 * points else points;
            Near(Accuracy(s, t, confidence), Least(kept + 10.0 * confidence, 75.0))
  {
    var longer, shorter := Max(|s|, |t|), Min(|s|, |t|);
    RatioBelow(longer - shorter, longer);
    MiddleBand(s, t, confidence);
  }

  lemma RatioBelow(d: nat, n: nat)
    requires d <= n != 0
    ensures 1.0 - Ratio(d, n) < 0.7 <==> 10 * (n - d) < 7 * n
  {
    AboveThreeTenths(Ratio(d, n), n as real, d as real);
  }

  lemma AboveThreeTenths(r: real, m: real, d: real)
    requires m > 0.0 && r * m == d
    ensures r > 0.3 <==> d > 0.3 * m
  {
    if r > 0.3 {
      PositiveProduct(r - 0.3, m);
      assert (r - 0.3) * m == r * m - 0.3 * m;
    } else if r < 0.3 {
      PositiveProduct(0.3 - r, m);
      assert (0.3 - r) * m == 0.3 * m - r * m;
    }
  }

  lemma PositiveProduct(a: real, b: real)
    requires a > 0.0 && b > 0.0
    ensures a * b > 0.0
  {
  }

  lemma NoneIncluded(s: string, t: string)
    requires |s| == |t| && s != t
    ensures !Includes(s, t) && !Includes(t, s)
  {
    assert s[0..|s|] == s && t[0..|t|] == t;
  }

  /**
   * One wrong letter in a word of five letters or more: 70 points for the part that is right, 5 for the
   * start or the end, 10 for full confidence, and no more than 75.
   */
  lemma OneWrongLetter(s: string, t: string, k: nat, confidence: real)
    requires |s| == |t| >= 5 && k < |t| && s[k] != t[k] && !SoundsLike(s, t)
    requires forall i :: 0 <= i < |t| && i != k ==> s[i] == t[i]
    requires Likely(confidence)
    ensures Similarity(s, t) == 1.0 - 1.0 / |t| as real
    ensures Accuracy(s, t, confidence)
         == Round(Least(70.0 * (1.0 - 1.0 / |t| as real) + 5.0 + 10.0 * confidence, 75.0)) as real
  {
    ChangedInPlace(s, t, {k});
    DistanceRange(s, t);
    NoneIncluded(s, t);
    assert s[..2] == t[..2] || s[|s| - 2..] == t[|t| - 2..];
    OneIsFew(|t|);
  }

  lemma OneIsFew(n: nat)
    requires n >= 5
    ensures Ratio(1, n) == 1.0 / n as real && 0.0 < Ratio(1, n) <= 0.2
    ensures Ratio(0, n) == 0.0
  {
  }

  lemma NotPartOf(s: string, t: string)
    requires t != [] && forall c :: c in s ==> c !in t
    ensures !Includes(s, t)
  {
    forall i | 0 <= i <= |s| ensures !OccursAt(s, t, i) {
      if i + |t| <= |s| {
        assert s[i..i + |t|][0] == s[i] && t[0] in t && s[i] in s;
      }
    }
  }

  /** Words without a common letter score 10, however sure the recognition. */
  lemma NothingInCommonScoresTen(s: string, t: string, confidence: real)
    requires s != [] && t != [] && forall c :: c in s ==> c !in t
    ensures Accuracy(s, t, confidence) == 10.0
  {
    NothingInCommon(s, t);
    assert s[0] in s;
    NotPartOf(s, t);
    NotPartOf(t, s);
    SimilarityRange(s, t);
  }

  lemma RoundKeepsOrder(x: real, y: real)
    requires x <= y
    ensures Round(x) <= Round(y)
  {
  }

  /** Being surer of what was heard never lowers the score. */
  lemma MonotoneInConfidence(s: string, t: string, lower: real, higher: real)
    requires lower <= higher
    ensures Accuracy(s, t, lower) <= Accuracy(s, t, higher)
  {
    RoundKeepsOrder(Least(75.0 + lower * 15.0, 85.0), Least(75.0 + higher * 15.0, 85.0));
    if s != t {
      var base := BaseAccuracy(s, t);
      var floor := if |s| > 0 && Similarity(s, t) >= 0.3 then 15.0 else 5.0;
      RoundKeepsOrder(Greatest(Least(base + lower * 10.0, 75.0), floor),
                      Greatest(Least(base + higher * 10.0, 75.0), floor));
    }
  }

  /** Hearing nothing at all is scored as hearing part of the word: at least 75. */
  lemma SilenceCountsAsPart(t: string, confidence: real)
    requires t != [] && Likely(confidence)
    ensures 75.0 <= Accuracy([], t, confidence) <= 85.0
  {
    assert OccursAt(t, [], 0);
    ScoreBands([], t, confidence);
  }

  /**
   * A target in a script other than ASCII Latin is deleted whole. Whatever was said in such a script
   * then scores at least 95, and whatever else was said 75 to 85.
   */
  lemma OtherScriptExactly(spoken: string, target: string, confidence: real, lower: string -> string)
    requires Likely(confidence) && !HasWordChar(lower(target))
    ensures var score := Accuracy(Normalized(spoken, lower), Normalized(target, lower), confidence);
            && (score >= 95.0 <==> !HasWordChar(lower(spoken)))
            && (score < 95.0 ==> 75.0 <= score <= 85.0)
  {
    NothingLeft(spoken, lower);
    NothingLeft(target, lower);
    var s := Normalized(spoken, lower);
    assert OccursAt(s, "", 0);
    ScoreBands(s, "", confidence);
  }
}

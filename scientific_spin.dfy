/** The float recogniser of source/gui/scientificspin.py: the pattern
    `([+-]?\d+(\.\d*)?|\.\d+)([eE][+-]?\d+)?` searched for with `re.search`,
    the validator states a spin box shows while the user types, and the
    fix-up that keeps the first float found in the text. */
module ScientificSpin {
  import opened Wrappers
  import opened Text

  predicate IsSign(c: char) { c == '+' || c == '-' }

  predicate IsExponentMark(c: char) { c == 'e' || c == 'E' }

  // ---------------------------------------------------------------------
  // Matching the pattern at one position, as Python's backtracking matcher does

  /** `\d+` and `\d*` are greedy: the end of the run of digits from `k`. */
  function DigitsEnd(s: string, k: nat): (e: nat)
    requires k <= |s|
    ensures k <= e <= |s| && (e == |s| || !IsDigit(s[e]))
    ensures forall m | k <= m < e :: IsDigit(s[m])
    decreases |s| - k
  {
    if k < |s| && IsDigit(s[k]) then DigitsEnd(s, k + 1) else k
  }

  /** `(\.\d*)?` after the integer digits ending at `d`. */
  function FractionEnd(s: string, d: nat): (e: nat)
    requires d <= |s|
    ensures d <= e <= |s|
  {
    if d < |s| && s[d] == '.' then DigitsEnd(s, d + 1) else d
  }

  /** The coefficient `[+-]?\d+(\.\d*)?|\.\d+` at `i`: where it ends, or
      `None` when neither alternative matches there. */
  function CoefficientEnd(s: string, i: nat): (r: Option<nat>)
    requires i <= |s|
    ensures r.Some? ==> i < r.value <= |s|
  {
    if i + 1 < |s| && IsSign(s[i]) && IsDigit(s[i + 1]) then Some(FractionEnd(s, DigitsEnd(s, i + 1)))
    else if i < |s| && IsDigit(s[i]) then Some(FractionEnd(s, DigitsEnd(s, i)))
    else if i + 1 < |s| && s[i] == '.' && IsDigit(s[i + 1]) then Some(DigitsEnd(s, i + 1))
    else None
  }

  /** The optional exponent `([eE][+-]?\d+)?` after the coefficient ending at
      `c`: taken when it matches, otherwise the match ends at `c`. */
  function ExponentEnd(s: string, c: nat): (e: nat)
    requires c <= |s|
    ensures c <= e <= |s|
  {
    if c < |s| && IsExponentMark(s[c]) then
      if c + 2 < |s| && IsSign(s[c + 1]) && IsDigit(s[c + 2]) then DigitsEnd(s, c + 2)
      else if c + 1 < |s| && IsDigit(s[c + 1]) then DigitsEnd(s, c + 1)
      else c
    else c
  }

  /** The match of the pattern that starts at `i`, by its end. */
  function MatchAt(s: string, i: nat): (r: Option<nat>)
    requires i <= |s|
    ensures r.Some? ==> i < r.value <= |s|
  {
    match CoefficientEnd(s, i)
    case None => None
    case Some(c) => Some(ExponentEnd(s, c))
  }

  /** `_float_re.search(s)` from `from` on: the leftmost position where the
      pattern matches, with the end of that match. */
  function Search(s: string, from: nat): (r: Option<(nat, nat)>)
    requires from <= |s|
    ensures r.Some? ==> from <= r.value.0 < r.value.1 <= |s| && MatchAt(s, r.value.0) == Some(r.value.1)
    decreases |s| - from
  {
    if from == |s| then None
    else if MatchAt(s, from).Some? then Some((from, MatchAt(s, from).value))
    else Search(s, from + 1)
  }

  /** The match found is the leftmost one, and none is found only when the
      pattern matches nowhere from `from` on. */
  lemma {:induction false} SearchIsLeftmost(s: string, from: nat)
    requires from <= |s|
    ensures Search(s, from).Some? ==> forall k | from <= k < Search(s, from).value.0 :: MatchAt(s, k).None?
    ensures Search(s, from).None? ==> forall k | from <= k <= |s| :: MatchAt(s, k).None?
    decreases |s| - from
  {
    if from == |s| {
      NoMatchAtEnd(s);
    } else if MatchAt(s, from).None? {
      SearchIsLeftmost(s, from + 1);
      assert Search(s, from) == Search(s, from + 1);
    }
  }

  /** Nothing matches at the end of the text: a float has at least one character. */
  lemma NoMatchAtEnd(s: string)
    ensures MatchAt(s, |s|).None?
  {
  }

  /** `valid_float_string(string)`: the first match found is the whole string. */
  predicate ValidFloatString(s: string)
  {
    match Search(s, 0)
    case Some((i, j)) => s[i..j] == s
    case None => false
  }

  /** The string is valid exactly when the pattern, matched from its start,
      takes all of it. */
  lemma ValidIsWholeMatch(s: string)
    ensures ValidFloatString(s) <==> MatchAt(s, 0) == Some(|s|)
  {
    if MatchAt(s, 0) == Some(|s|) {
      assert Search(s, 0) == Some((0, |s|));
      assert s[0..|s|] == s;
    }
  }

  // ---------------------------------------------------------------------
  // The language of the pattern as an automaton

  /** The states of a finite automaton for the pattern: what has been read
      so far of sign, digits, point, fraction and exponent. */
  datatype Phase =
    | Start | Sign | Integer | Point | LeadingPoint | Fraction
    | Exponent | ExponentSign | ExponentDigits | Dead

  function Step(q: Phase, c: char): Phase
  {
    match q
    case Start => if IsSign(c) then Sign else if IsDigit(c) then Integer else if c == '.' then LeadingPoint else Dead
    case Sign => if IsDigit(c) then Integer else Dead
    case Integer => if IsDigit(c) then Integer else if c == '.' then Point else if IsExponentMark(c) then Exponent else Dead
    case Point => if IsDigit(c) then Fraction else if IsExponentMark(c) then Exponent else Dead
    case LeadingPoint => if IsDigit(c) then Fraction else Dead
    case Fraction => if IsDigit(c) then Fraction else if IsExponentMark(c) then Exponent else Dead
    case Exponent => if IsSign(c) then ExponentSign else if IsDigit(c) then ExponentDigits else Dead
    case ExponentSign => if IsDigit(c) then ExponentDigits else Dead
    case ExponentDigits => if IsDigit(c) then ExponentDigits else Dead
    case Dead => Dead
  }

  /** The state after reading `s[k..]` from `q`. */
  function RunFrom(q: Phase, s: string, k: nat): Phase
    requires k <= |s|
    decreases |s| - k
  {
    if k == |s| then q else RunFrom(Step(q, s[k]), s, k + 1)
  }

  predicate Final(q: Phase)
  {
    q == Integer || q == Point || q == Fraction || q == ExponentDigits
  }

  /** The whole string is a float of the pattern. */
  predicate IsFloat(s: string)
  {
    Final(RunFrom(Start, s, 0))
  }

  /** Nothing is accepted once the automaton is dead. */
  lemma {:induction false} DeadStays(s: string, k: nat)
    requires k <= |s|
    ensures RunFrom(Dead, s, k) == Dead
    decreases |s| - k
  {
    if k < |s| {
      DeadStays(s, k + 1);
    }
  }

  /** A state that loops on digits reads a run of digits without moving. */
  lemma {:induction false} DigitsLoop(q: Phase, s: string, k: nat)
    requires q == Integer || q == Fraction || q == ExponentDigits
    requires k <= |s|
    ensures RunFrom(q, s, k) == RunFrom(q, s, DigitsEnd(s, k))
    decreases |s| - k
  {
    if k < |s| && IsDigit(s[k]) {
      DigitsLoop(q, s, k + 1);
    }
  }

  /** From the states after a coefficient, the rest is accepted exactly when
      it is empty or a whole exponent. */
  lemma AfterCoefficient(q: Phase, s: string, c: nat)
    requires q == Integer || q == Point || q == Fraction
    requires c <= |s| && (c == |s| || (!IsDigit(s[c]) && (q == Integer ==> s[c] != '.')))
    ensures Final(RunFrom(q, s, c)) <==> ExponentEnd(s, c) == |s|
  {
    if c < |s| {
      if IsExponentMark(s[c]) {
        assert RunFrom(q, s, c) == RunFrom(Exponent, s, c + 1);
        if c + 1 == |s| {
        } else if IsSign(s[c + 1]) {
          assert RunFrom(Exponent, s, c + 1) == RunFrom(ExponentSign, s, c + 2);
          if c + 2 < |s| && IsDigit(s[c + 2]) {
            assert RunFrom(ExponentSign, s, c + 2) == RunFrom(ExponentDigits, s, c + 3);
            DigitsLoop(ExponentDigits, s, c + 3);
            DigitsTail(ExponentDigits, s, DigitsEnd(s, c + 3));
          } else if c + 2 < |s| {
            DeadStays(s, c + 3);
          }
        } else if IsDigit(s[c + 1]) {
          assert RunFrom(Exponent, s, c + 1) == RunFrom(ExponentDigits, s, c + 2);
          DigitsLoop(ExponentDigits, s, c + 2);
          DigitsTail(ExponentDigits, s, DigitsEnd(s, c + 2));
        } else {
          DeadStays(s, c + 2);
        }
      } else {
        assert RunFrom(q, s, c) == RunFrom(Dead, s, c + 1);
        DeadStays(s, c + 1);
      }
    }
  }

  /** After a maximal run of digits, only the end of the string leaves the
      last exponent digit accepted. */
  lemma DigitsTail(q: Phase, s: string, e: nat)
    requires q == ExponentDigits && e <= |s| && (e == |s| || !IsDigit(s[e]))
    ensures Final(RunFrom(q, s, e)) <==> e == |s|
  {
    if e < |s| {
      assert RunFrom(q, s, e) == RunFrom(Dead, s, e + 1);
      DeadStays(s, e + 1);
    }
  }

  /** After integer digits ending at `d`, the fraction part. */
  lemma AfterInteger(s: string, d: nat)
    requires d <= |s| && (d == |s| || !IsDigit(s[d]))
    ensures Final(RunFrom(Integer, s, d)) <==> ExponentEnd(s, FractionEnd(s, d)) == |s|
  {
    if d < |s| && s[d] == '.' {
      var f := DigitsEnd(s, d + 1);
      assert RunFrom(Integer, s, d) == RunFrom(Point, s, d + 1);
      if f == d + 1 {
        AfterCoefficient(Point, s, f);
      } else {
        assert RunFrom(Point, s, d + 1) == RunFrom(Fraction, s, d + 2);
        DigitsLoop(Fraction, s, d + 2);
        assert DigitsEnd(s, d + 2) == f;
        AfterCoefficient(Fraction, s, f);
      }
    } else {
      AfterCoefficient(Integer, s, d);
    }
  }

  /** `valid_float_string` accepts exactly the strings of the pattern's
      language: the greedy first match and the automaton agree. */
  lemma ValidIsFloat(s: string)
    ensures ValidFloatString(s) <==> IsFloat(s)
  {
    ValidIsWholeMatch(s);
    if |s| == 0 {
    } else if |s| > 1 && IsSign(s[0]) && IsDigit(s[1]) {
      assert RunFrom(Start, s, 0) == RunFrom(Sign, s, 1) == RunFrom(Integer, s, 2);
      DigitsLoop(Integer, s, 2);
      assert DigitsEnd(s, 1) == DigitsEnd(s, 2);
      AfterInteger(s, DigitsEnd(s, 1));
    } else if IsDigit(s[0]) {
      assert RunFrom(Start, s, 0) == RunFrom(Integer, s, 1);
      DigitsLoop(Integer, s, 1);
      assert DigitsEnd(s, 0) == DigitsEnd(s, 1);
      AfterInteger(s, DigitsEnd(s, 0));
    } else if |s| > 1 && s[0] == '.' && IsDigit(s[1]) {
      assert RunFrom(Start, s, 0) == RunFrom(LeadingPoint, s, 1) == RunFrom(Fraction, s, 2);
      DigitsLoop(Fraction, s, 2);
      assert DigitsEnd(s, 1) == DigitsEnd(s, 2);
      AfterCoefficient(Fraction, s, DigitsEnd(s, 1));
    } else if IsSign(s[0]) || s[0] == '.' {
      var q := Step(Start, s[0]);
      assert q == Sign || q == LeadingPoint;
      assert RunFrom(Start, s, 0) == RunFrom(q, s, 1);
      if |s| > 1 {
        assert Step(q, s[1]) == Dead;
        assert RunFrom(q, s, 1) == RunFrom(Dead, s, 2);
        DeadStays(s, 2);
      }
    } else {
      assert RunFrom(Start, s, 0) == RunFrom(Dead, s, 1);
      DeadStays(s, 1);
    }
  }

  /** The examples of the pattern: a sign needs digits after it, a point
      needs digits on one side, an exponent needs digits. */
  lemma RejectedExamples()
    ensures !ValidFloatString("-.5") && !ValidFloatString("1e") && !ValidFloatString(".") && !ValidFloatString("")
  {
    ValidIsFloat("-.5");
    ValidIsFloat("1e");
    ValidIsFloat(".");
    ValidIsFloat("");
  }

  lemma AcceptedExamples()
    ensures ValidFloatString("1.") && ValidFloatString("+2") && ValidFloatString("1.e5")
  {
    ValidIsFloat("1.");
    ValidIsFloat("+2");
    ValidIsFloat("1.e5");
  }

  // ---------------------------------------------------------------------
  // FloatValidator

  /** `QValidator.State`. */
  datatype State = Invalid | Intermediate | Acceptable

  /** Python's `s[k]`, where a negative `k` counts from the end. */
  function PyIndex(s: string, k: int): (r: Result<char>)
    ensures r.Ok? <==> -|s| <= k < |s|
    ensures r.Ok? ==> r.value == if k < 0 then s[|s| + k] else s[k]
    ensures r.Err? ==> r.error == IndexError
  {
    if 0 <= k < |s| then Ok(s[k])
    else if -|s| <= k < 0 then Ok(s[|s| + k])
    else Err(IndexError)
  }

  /** `FloatValidator.validate(string, position)`. */
  function Validate(s: string, position: int): (r: Result<(State, string, int)>)
  {
    if ValidFloatString(s) then Ok((Acceptable, s, position))
    else if s == "" then Ok((Intermediate, s, position))
    else
      match PyIndex(s, position - 1)
      case Err(e) => Err(e)
      case Ok(c) => Ok((if c in "e.-+" then Intermediate else Invalid, s, position))
  }

  /** The validator's verdict: acceptable exactly for a float; otherwise
      intermediate for the empty string or when the character before the
      cursor (the last one for a cursor at 0) is 'e', '.', '-' or '+';
      otherwise invalid. The text and the cursor come back unchanged, and
      only a cursor outside the text raises. */
  lemma ValidateStates(s: string, position: int)
    ensures Validate(s, position).Err? <==>
              !IsFloat(s) && s != "" && !(-|s| <= position - 1 < |s|)
    ensures Validate(s, position).Ok? ==>
              Validate(s, position).value.1 == s && Validate(s, position).value.2 == position
    ensures Validate(s, position).Ok? ==>
              (Validate(s, position).value.0 == Acceptable <==> IsFloat(s))
    ensures Validate(s, position).Ok? ==>
              (Validate(s, position).value.0 == Intermediate <==>
                 !IsFloat(s) && (s == "" || PyIndex(s, position - 1).value in "e.-+"))
  {
    ValidIsFloat(s);
  }

  /** A capital exponent mark is not in the list: typing "1E" is refused
      while "1e" is let through as unfinished. */
  lemma ValidateExponentMarks()
    ensures Validate("1E", 2) == Ok((Invalid, "1E", 2))
    ensures Validate("1e", 2) == Ok((Intermediate, "1e", 2))
    ensures Validate("1e", 0) == Ok((Intermediate, "1e", 0))
  {
    ValidIsFloat("1E");
    ValidIsFloat("1e");
  }

  /** `FloatValidator.fixup(text)`: the first float found, or "". */
  function Fixup(text: string): string
  {
    match Search(text, 0)
    case Some((i, j)) => text[i..j]
    case None => ""
  }

  /** A maximal run of digits in a slice is the run in the whole string, cut
      at the end of the slice. */
  lemma {:induction false} DigitsEndSlice(s: string, i: nat, j: nat, k: nat)
    requires i <= k <= j <= |s|
    ensures DigitsEnd(s[i..j], k - i) == (if DigitsEnd(s, k) < j then DigitsEnd(s, k) else j) - i
    decreases j - k
  {
    if k < j && IsDigit(s[k]) {
      DigitsEndSlice(s, i, j, k + 1);
    }
  }

  /** The match at `i`, ending at `j`, is the match of `s[i..j]` at its start. */
  lemma MatchOfSlice(s: string, i: nat, j: nat)
    requires i <= |s| && MatchAt(s, i) == Some(j)
    ensures MatchAt(s[i..j], 0) == Some(j - i)
  {
    var c := CoefficientEnd(s, i).value;
    CoefficientOfSlice(s, i, j);
    ExponentOfSlice(s, i, j, c);
  }

  /** The coefficient at `i`, read in a slice that holds all of it. */
  lemma CoefficientOfSlice(s: string, i: nat, j: nat)
    requires i < j <= |s| && CoefficientEnd(s, i).Some? && CoefficientEnd(s, i).value <= j
    ensures CoefficientEnd(s[i..j], 0) == Some(CoefficientEnd(s, i).value - i)
  {
    var t := s[i..j];
    if i + 1 < |s| && IsSign(s[i]) && IsDigit(s[i + 1]) {
      IntegerOfSlice(s, i, j, i + 1);
      assert t[0] == s[i] && t[1] == s[i + 1];
    } else if i < |s| && IsDigit(s[i]) {
      IntegerOfSlice(s, i, j, i);
      assert t[0] == s[i];
    } else {
      DigitsEndSlice(s, i, j, i + 1);
      assert t[0] == s[i] && t[1] == s[i + 1];
    }
  }

  /** The first alternative of the coefficient, read in the slice. */
  lemma IntegerOfSlice(s: string, i: nat, j: nat, k: nat)
    requires i <= k < j <= |s| && IsDigit(s[k])
    requires FractionEnd(s, DigitsEnd(s, k)) <= j
    ensures FractionEnd(s[i..j], DigitsEnd(s[i..j], k - i)) == FractionEnd(s, DigitsEnd(s, k)) - i
  {
    var t := s[i..j];
    DigitsEndSlice(s, i, j, k);
    var d := DigitsEnd(s, k);
    if d < j && s[d] == '.' {
      DigitsEndSlice(s, i, j, d + 1);
      assert t[d - i] == s[d];
    }
  }

  /** The exponent after the coefficient ending at `c`, read in the slice
      that ends where the whole match ends. */
  lemma ExponentOfSlice(s: string, i: nat, j: nat, c: nat)
    requires i <= c <= j <= |s| && ExponentEnd(s, c) == j
    ensures ExponentEnd(s[i..j], c - i) == j - i
  {
    var t := s[i..j];
    if c < j {
      if c + 2 < |s| && IsSign(s[c + 1]) && IsDigit(s[c + 2]) {
        DigitsEndSlice(s, i, j, c + 2);
      } else {
        DigitsEndSlice(s, i, j, c + 1);
      }
    }
  }

  /** `fixup` returns the empty string exactly when no float occurs in the
      text, and otherwise a float of the pattern. */
  lemma FixupIsFloat(text: string)
    ensures Fixup(text) == "" <==> forall k | 0 <= k <= |text| :: MatchAt(text, k).None?
    ensures Fixup(text) != "" ==> IsFloat(Fixup(text))
  {
    SearchIsLeftmost(text, 0);
    if Search(text, 0).Some? {
      var (i, j) := Search(text, 0).value;
      MatchOfSlice(text, i, j);
      ValidIsWholeMatch(text[i..j]);
      ValidIsFloat(text[i..j]);
    }
  }

  /** A valid float is left as it is, and fixing up twice is fixing up once. */
  lemma FixupIdempotent(text: string)
    ensures IsFloat(text) ==> Fixup(text) == text
    ensures Fixup(Fixup(text)) == Fixup(text)
  {
    ValidIsFloat(text);
    FixupIsFloat(text);
    var fixed := Fixup(text);
    if fixed != "" {
      ValidIsFloat(fixed);
      ValidIsWholeMatch(fixed);
      assert Search(fixed, 0) == Some((0, |fixed|));
      assert fixed[0..|fixed|] == fixed;
    }
    if IsFloat(text) {
      ValidIsWholeMatch(text);
      assert Search(text, 0) == Some((0, |text|));
      assert text[0..|text|] == text;
    }
  }
}

/** Fitting candidate texts into a token budget before a model is asked to choose between them. */
module TokenBudget {
  import opened Text

  datatype Candidate = Candidate(
    chunk: string, fingerprint: string, text: string, headings: seq<string>,
    score: real, confidence: real, riskFlags: seq<string>, signals: seq<string>)

  datatype Input = Input(objective: string, failureClass: string, candidates: seq<Candidate>)

  /** A token is a word. */
  function Tokens(text: string): nat { |Fields(Trim(text))| }

  function TrimText(text: string, limit: int): string {
    if limit <= 0 then ""
    else if |Fields(Trim(text))| <= limit then Trim(text)
    else Join(Fields(Trim(text))[..limit], " ")
  }

  function Min(a: int, b: int): int { if a < b then a else b }

  function Max(a: int, b: int): int { if a < b then b else a }

  /** Go's integer division, which rounds toward zero. */
  function Quotient(a: int, b: int): int
    requires b > 0
  {
    if a >= 0 then a / b else -(-a / b)
  }

  function Budget(remaining: int, divisor: int, ceiling: int, floor: int): int
    requires divisor > 0
  {
    Max(Min(Quotient(remaining, divisor), ceiling), floor)
  }

  function ClampHeadings(items: seq<string>): seq<string> { if |items| <= 2 then items else items[..2] }

  /** The budget of candidate idx out of n, while `remaining` tokens are left. */
  function Share(remaining: int, n: int, idx: int): int { Budget(remaining, Max(1, n - idx), 48, 16) }

  function FitText(text: string, budget: int): string {
    if TrimText(text, budget) == "" then TrimText(text, 16) else TrimText(text, budget)
  }

  function Fit(c: Candidate, budget: int): Candidate {
    c.(text := FitText(c.text, budget), headings := ClampHeadings(c.headings))
  }

  /** The candidates from idx on, each fitted to its share of what the ones before it left over. */
  function FitFrom(candidates: seq<Candidate>, idx: nat, remaining: int): seq<Candidate>
    decreases |candidates| - idx
  {
    if idx >= |candidates| || idx == 4 then []
    else
      var c := Fit(candidates[idx], Share(remaining, |candidates|, idx));
      [c] + FitFrom(candidates, idx + 1, remaining - Tokens(c.text))
  }

  function Allowance(input: Input, maxInputTokens: int): int {
    Max(64, maxInputTokens - Tokens(Trim(input.objective)) - Tokens(Trim(input.failureClass)))
  }

  function Compact(input: Input, maxInputTokens: int): Input {
    var fitted := FitFrom(input.candidates, 0, Allowance(input, maxInputTokens));
    if maxInputTokens <= 0 || |fitted| < 2 then input
    else Input(Trim(input.objective), Trim(input.failureClass), fitted)
  }

  lemma FitStep(candidates: seq<Candidate>, idx: nat, remaining: int, c: Candidate)
    requires idx < |candidates| && idx != 4 && c == Fit(candidates[idx], Share(remaining, |candidates|, idx))
    ensures FitFrom(candidates, idx, remaining) == [c] + FitFrom(candidates, idx + 1, remaining - Tokens(c.text))
  {
    hide FitText, Share, Tokens, ClampHeadings;
  }

  lemma FitEnd(candidates: seq<Candidate>, idx: nat, remaining: int)
    requires idx >= |candidates| || idx == 4
    ensures FitFrom(candidates, idx, remaining) == []
  {
  }

  method FitCandidate(candidate: Candidate, budget: int) returns (c: Candidate)
    ensures c == Fit(candidate, budget)
  {
    var text := TrimText(candidate.text, budget);
    if text == "" { text := TrimText(candidate.text, 16); }
    c := candidate.(text := text, headings := ClampHeadings(candidate.headings));
  }

  method FitCandidates(candidates: seq<Candidate>, allowance: int) returns (fitted: seq<Candidate>)
    ensures fitted == FitFrom(candidates, 0, allowance)
  {
    hide Fit, Share, Tokens, FitFrom;
    fitted := [];
    var remaining := allowance;
    var idx := 0;
    while idx < |candidates| && idx != 4
      invariant 0 <= idx <= |candidates|
      invariant FitFrom(candidates, 0, allowance) == fitted + FitFrom(candidates, idx, remaining)
    {
      var c := FitCandidate(candidates[idx], Share(remaining, |candidates|, idx));
      FitStep(candidates, idx, remaining, c);
      fitted := fitted + [c];
      remaining := remaining - Tokens(c.text);
      idx := idx + 1;
    }
    FitEnd(candidates, idx, remaining);
  }

  method CompactInput(input: Input, maxInputTokens: int) returns (out: Input)
    ensures out == Compact(input, maxInputTokens)
  {
    hide FitFrom, Tokens, Trim;
    if maxInputTokens <= 0 { return input; }
    out := Input(Trim(input.objective), Trim(input.failureClass), []);
    var remaining := maxInputTokens - Tokens(out.objective) - Tokens(out.failureClass);
    if remaining < 64 { remaining := 64; }
    var fitted := FitCandidates(input.candidates, remaining);
    out := out.(candidates := fitted);
    if |out.candidates| < 2 { return input; }
  }

  // ----- what is kept of a text

  lemma FieldsOfTake(ws: seq<string>, n: nat)
    requires n <= |ws| && forall w :: w in ws ==> IsWord(w)
    ensures Fields(Join(ws[..n], " ")) == ws[..n]
  {
    FieldsOfJoinedWords(ws[..n]);
  }

  /** A trimmed text is made of the first words of the text, as many as its limit allows. */
  lemma TrimTextKeepsFirstWords(text: string, limit: int)
    ensures Fields(TrimText(text, limit)) == Fields(text)[..Min(Max(limit, 0), |Fields(text)|)]
    ensures Tokens(TrimText(text, limit)) == Min(Max(limit, 0), Tokens(text))
  {
    FieldsTrim(text);
    FieldsAreWords(Trim(text));
    if 0 < limit < |Fields(text)| { FieldsOfTake(Fields(text), limit); }
    FieldsTrim(TrimText(text, limit));
  }

  /** A fitted text keeps its first words up to the budget: the second attempt never adds any. */
  lemma FitTextKeepsFirstWords(text: string, budget: int)
    requires 16 <= budget
    ensures Fields(FitText(text, budget)) == Fields(text)[..Min(budget, |Fields(text)|)]
    ensures Tokens(FitText(text, budget)) == Min(budget, Tokens(text))
  {
    TrimTextKeepsFirstWords(text, budget);
    TrimTextKeepsFirstWords(text, 16);
    FieldsTrim(text);
  }

  // ----- the bound

  function TokenSum(candidates: seq<Candidate>): nat {
    if candidates == [] then 0 else Tokens(candidates[0].text) + TokenSum(candidates[1..])
  }

  lemma QuotientIsSmall(remaining: nat, d: nat, left: nat)
    requires 1 <= left <= d
    ensures left * (remaining / d) <= remaining
  {
    var q := remaining / d;
    assert d * q <= remaining;
    assert left * q <= d * q;
  }

  lemma LessOne(left: nat, q: nat)
    requires 1 <= left && 16 <= q
    ensures 16 * (left - 1) + q <= left * q
  {
    assert left * q == (left - 1) * q + q;
    assert (left - 1) * 16 <= (left - 1) * q;
  }

  /** Dividing by more than the number of texts still to come leaves 16 tokens for each of them. */
  lemma ShareLeavesEnough(remaining: int, n: int, idx: nat, left: nat)
    requires 1 <= left <= n - idx && 16 * left <= remaining
    ensures 16 <= Share(remaining, n, idx) <= 48
    ensures 16 * (left - 1) <= remaining - Share(remaining, n, idx)
  {
    var q := remaining / (n - idx);
    QuotientIsSmall(remaining, n - idx, left);
    assert Share(remaining, n, idx) == Max(Min(q, 48), 16);
    if q >= 16 { LessOne(left, q); }
  }

  /** How many candidates are still to be fitted. */
  function Left(n: int, idx: int): int { Min(n, 4) - idx }

  /** The words a candidate keeps of another: the first ones, at most 48 and at least 16 if there are that many. */
  ghost predicate Shortened(c: Candidate, of: Candidate) {
    && c == of.(text := c.text, headings := c.headings)
    && c.headings == of.headings[..Min(2, |of.headings|)]
    && Tokens(c.text) <= 48
    && Fields(c.text) <= Fields(of.text)
    && Tokens(c.text) >= Min(16, Tokens(of.text))
    && c.text == (if Tokens(c.text) == Tokens(of.text) then Trim(of.text) else Join(Fields(c.text), " "))
  }

  lemma FitShortens(c: Candidate, budget: int)
    requires 16 <= budget <= 48
    ensures Shortened(Fit(c, budget), c)
  {
    FitTextKeepsFirstWords(c.text, budget);
    FieldsTrim(c.text);
    FieldsTrim(FitText(c.text, budget));
    TrimTextKeepsFirstWords(c.text, budget);
    BlankIffNoFields(c.text);
    if Tokens(c.text) == 0 { assert Trim(c.text) == ""; }
  }

  /** One fitted candidate leaves enough for the others. */
  lemma FitLeavesEnough(candidates: seq<Candidate>, idx: nat, remaining: int, c: Candidate)
    requires idx < Min(|candidates|, 4) && 16 * Left(|candidates|, idx) <= remaining
    requires c == Fit(candidates[idx], Share(remaining, |candidates|, idx))
    ensures Shortened(c, candidates[idx])
    ensures 16 * Left(|candidates|, idx + 1) <= remaining - Tokens(c.text)
  {
    var share := Share(remaining, |candidates|, idx);
    ShareLeavesEnough(remaining, |candidates|, idx, Left(|candidates|, idx));
    FitTextKeepsFirstWords(candidates[idx].text, share);
    FitShortens(candidates[idx], share);
  }

  ghost predicate AllShortened(fitted: seq<Candidate>, candidates: seq<Candidate>, idx: nat) {
    idx + |fitted| <= |candidates| && forall k :: 0 <= k < |fitted| ==> Shortened(fitted[k], candidates[idx + k])
  }

  lemma AllShortenedFrom(c: Candidate, later: seq<Candidate>, candidates: seq<Candidate>, idx: nat)
    requires idx < |candidates| && Shortened(c, candidates[idx]) && AllShortened(later, candidates, idx + 1)
    ensures AllShortened([c] + later, candidates, idx)
  {
    forall k | 0 <= k < |[c] + later| ensures Shortened(([c] + later)[k], candidates[idx + k]) {
      if k > 0 { assert ([c] + later)[k] == later[k - 1] && candidates[idx + k] == candidates[idx + 1 + (k - 1)]; }
    }
  }

  lemma {:induction false} FitFromIsBounded(candidates: seq<Candidate>, idx: nat, remaining: int)
    requires idx <= Min(|candidates|, 4) && 16 * Left(|candidates|, idx) <= remaining
    ensures var fitted := FitFrom(candidates, idx, remaining);
            && |fitted| == Left(|candidates|, idx)
            && TokenSum(fitted) <= remaining
            && AllShortened(fitted, candidates, idx)
    decreases |candidates| - idx
  {
    hide Fit, Share, Tokens;
    if idx < |candidates| && idx != 4 {
      var c := Fit(candidates[idx], Share(remaining, |candidates|, idx));
      FitLeavesEnough(candidates, idx, remaining, c);
      FitStep(candidates, idx, remaining, c);
      FitFromIsBounded(candidates, idx + 1, remaining - Tokens(c.text));
      AllShortenedFrom(c, FitFrom(candidates, idx + 1, remaining - Tokens(c.text)), candidates, idx);
    }
  }

  /** The tokens that n candidates still to come share, each of them at least 16 and at most 48. */
  function FairShare(remaining: nat, n: nat): nat
    requires 0 < n
  {
    if remaining / n < 16 then 16 else if 48 < remaining / n then 48 else remaining / n
  }

  /** With `left` tokens left over, c has as many words of another as a fair share among n allows. */
  predicate FairPart(c: Candidate, of: Candidate, left: int, n: int) {
    0 <= left && 0 < n && Tokens(c.text) == Min(Tokens(of.text), FairShare(left, n))
  }

  /** Each text has as many words as its fair share of what the ones before it left over allows. */
  ghost predicate Fair(fitted: seq<Candidate>, candidates: seq<Candidate>, idx: nat, remaining: int) {
    idx + |fitted| <= |candidates| &&
    forall k :: 0 <= k < |fitted| ==>
      FairPart(fitted[k], candidates[idx + k], remaining - TokenSum(fitted[..k]), |candidates| - idx - k)
  }

  lemma FairFrom(c: Candidate, later: seq<Candidate>, candidates: seq<Candidate>, idx: nat, remaining: int)
    requires idx < |candidates| && Fair(later, candidates, idx + 1, remaining - Tokens(c.text))
    requires FairPart(c, candidates[idx], remaining, |candidates| - idx)
    ensures Fair([c] + later, candidates, idx, remaining)
  {
    hide FairPart, Tokens;
    var all, n := [c] + later, |candidates|;
    forall k | 0 <= k < |all|
      ensures FairPart(all[k], candidates[idx + k], remaining - TokenSum(all[..k]), n - idx - k)
    {
      if k > 0 {
        assert all[..k][0] == c && all[..k][1..] == later[..k - 1];
        assert all[k] == later[k - 1] && candidates[idx + k] == candidates[idx + 1 + (k - 1)];
        assert FairPart(later[k - 1], candidates[idx + 1 + (k - 1)],
                        remaining - Tokens(c.text) - TokenSum(later[..k - 1]), n - (idx + 1) - (k - 1));
      }
    }
  }

  lemma {:induction false} FitFromIsFair(candidates: seq<Candidate>, idx: nat, remaining: int)
    requires idx <= Min(|candidates|, 4) && 16 * Left(|candidates|, idx) <= remaining
    ensures Fair(FitFrom(candidates, idx, remaining), candidates, idx, remaining)
    decreases |candidates| - idx
  {
    hide Fit, Share, Tokens, Fair, FairPart, TokenSum;
    if idx < |candidates| && idx != 4 {
      var c := Fit(candidates[idx], Share(remaining, |candidates|, idx));
      FitLeavesEnough(candidates, idx, remaining, c);
      FitStep(candidates, idx, remaining, c);
      FitFromIsFair(candidates, idx + 1, remaining - Tokens(c.text));
      ShareIsFair(candidates, idx, remaining);
      FairFrom(c, FitFrom(candidates, idx + 1, remaining - Tokens(c.text)), candidates, idx, remaining);
    } else {
      FairToNobody(candidates, idx, remaining);
    }
  }

  lemma FairToNobody(candidates: seq<Candidate>, idx: nat, remaining: int)
    requires idx <= |candidates|
    ensures Fair([], candidates, idx, remaining)
  {
  }

  lemma ShareIsFair(candidates: seq<Candidate>, idx: nat, remaining: int)
    requires idx < Min(|candidates|, 4) && 16 * Left(|candidates|, idx) <= remaining
    ensures FairPart(Fit(candidates[idx], Share(remaining, |candidates|, idx)), candidates[idx], remaining,
                     |candidates| - idx)
  {
    hide FitText, Tokens;
    ShareLeavesEnough(remaining, |candidates|, idx, Left(|candidates|, idx));
    FitTextKeepsFirstWords(candidates[idx].text, Share(remaining, |candidates|, idx));
  }

  /**
   * With a budget and two candidates or more, the objective and the failure class are kept without the white
   * space around them, and so are the first four candidates, each shortened to its first words by its fair
   * share of the allowance, which their texts together keep to. Otherwise the input is returned as it came.
   */
  lemma CompactFits(input: Input, maxInputTokens: int)
    ensures var out := Compact(input, maxInputTokens);
            if maxInputTokens <= 0 || |input.candidates| < 2 then out == input
            else
              && TrimmedFrom(out.objective, input.objective) && Fields(out.objective) == Fields(input.objective)
              && TrimmedFrom(out.failureClass, input.failureClass)
              && Fields(out.failureClass) == Fields(input.failureClass)
              && |out.candidates| == Min(|input.candidates|, 4)
              && TokenSum(out.candidates) <= Allowance(input, maxInputTokens)
              && AllShortened(out.candidates, input.candidates, 0)
              && Fair(out.candidates, input.candidates, 0, Allowance(input, maxInputTokens))
  {
    FitFromIsBounded(input.candidates, 0, Allowance(input, maxInputTokens));
    FitFromIsFair(input.candidates, 0, Allowance(input, maxInputTokens));
    TrimIsTrimmed(input.objective);
    TrimIsTrimmed(input.failureClass);
    hide FitFrom, Fair, AllShortened, Trim, TokenSum, TrimmedFrom;
  }

  /** The tokens of a whole input. */
  function InputTokens(input: Input): nat {
    Tokens(input.objective) + Tokens(input.failureClass) + TokenSum(input.candidates)
  }

  /**
   * A compacted input takes at most maxInputTokens tokens, or 64 more than its objective and failure
   * class when those leave less than that for the candidates.
   */
  lemma WholeInputFits(input: Input, maxInputTokens: int)
    ensures 0 < maxInputTokens && 2 <= |input.candidates| ==>
              InputTokens(Compact(input, maxInputTokens)) <=
              Max(maxInputTokens, 64 + Tokens(input.objective) + Tokens(input.failureClass))
    ensures Allowance(input, maxInputTokens) + Tokens(input.objective) + Tokens(input.failureClass) ==
            Max(maxInputTokens, 64 + Tokens(input.objective) + Tokens(input.failureClass))
  {
    CompactFits(input, maxInputTokens);
    FieldsTrim(input.objective);
    FieldsTrim(input.failureClass);
    FieldsTrim(Trim(input.objective));
    FieldsTrim(Trim(input.failureClass));
    hide Fields, Trim, TokenSum, AllShortened, FitFrom;
  }
}

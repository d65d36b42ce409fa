/** Fitting tool outputs into the model's budget (agent/agent_core/agent_loop.py, _fitToolOutputForModel). */
module ToolOutput {

  const PER_TOOL := 1200
  const PER_ROUND := 6000

  const OMITTED := "[工具输出省略] 本轮工具结果总量已达到回传模型上限。"
  const TOO_LONG := "[工具输出截断] 输出过长。"
  const CUT_PREFIX := "\n...[工具输出截断，原始长度 "
  const CUT_SUFFIX := " 字符]"

  function Digit(d: nat): char
    requires d < 10
  {
    ('0' as int + d) as char
  }

  function Decimal(n: nat): string {
    if n < 10 then [Digit(n)] else Decimal(n / 10) + [Digit(n % 10)]
  }

  function Pow10(k: nat): nat {
    if k == 0 then 1 else 10 * Pow10(k - 1)
  }

  /** Longer texts would need a notice that overflows the room kept for it. */
  const LONGEST := 39

  function Fit(text: string, perToolLimit: int, remaining: int): string {
    if remaining <= 0 then OMITTED
    else
      var limit := if perToolLimit < remaining then perToolLimit else remaining;
      var limit := if limit < 0 then 0 else limit;
      if |text| <= limit then text
      else if limit <= 80 then TOO_LONG
      else text[..limit - 60] + CUT_PREFIX + Decimal(|text|) + CUT_SUFFIX
  }

  lemma {:induction false} DecimalLength(n: nat, k: nat)
    requires k >= 1 && n < Pow10(k)
    ensures |Decimal(n)| <= k
  {
    if n >= 10 {
      assert k >= 2 by {
        assert Pow10(1) == 10 * Pow10(0);
      }
      DecimalLength(n / 10, k - 1);
    }
  }

  lemma {:induction false} NoticeLengths()
    ensures |OMITTED| == 27 && |TOO_LONG| == 14 && |CUT_PREFIX| + |CUT_SUFFIX| == 21
  {
  }

  /** One fitted text: the omission notice once the budget is gone, otherwise within the limit or the short notice. */
  lemma {:induction false} FitLength(text: string, perToolLimit: int, remaining: int)
    requires |text| < Pow10(LONGEST)
    ensures remaining <= 0 ==> |Fit(text, perToolLimit, remaining)| == 27
    ensures remaining > 0 ==> |Fit(text, perToolLimit, remaining)| <= (if remaining < 14 then 14 else remaining)
    ensures remaining > 0 && perToolLimit >= 14 ==> |Fit(text, perToolLimit, remaining)| <= perToolLimit
  {
    NoticeLengths();
    var limit := if perToolLimit < remaining then perToolLimit else remaining;
    if 80 < limit < |text| {
      CutLength(text, limit);
    }
  }

  /** A text within both limits is passed on as it is. */
  lemma {:induction false} ShortTextPasses(text: string, perToolLimit: int, remaining: int)
    requires 0 < remaining && |text| <= perToolLimit && |text| <= remaining
    ensures Fit(text, perToolLimit, remaining) == text
  {
  }

  /** A longer one keeps its start and tells its length, or gives way to a notice when there is little room or none. */
  lemma {:induction false} LongTextIsCut(text: string, perToolLimit: int, remaining: int)
    requires perToolLimit >= 0 && (|text| > perToolLimit || |text| > remaining)
    ensures var limit := if perToolLimit < remaining then perToolLimit else remaining;
            var r := Fit(text, perToolLimit, remaining);
            && (remaining <= 0 ==> r == OMITTED)
            && (0 < remaining && limit <= 80 ==> r == TOO_LONG)
            && (0 < remaining && limit > 80 ==>
                  && limit - 60 <= |r| && r[..limit - 60] == text[..limit - 60]
                  && r[limit - 60..] == CUT_PREFIX + Decimal(|text|) + CUT_SUFFIX)
  {
    var limit := if perToolLimit < remaining then perToolLimit else remaining;
    if 0 < remaining && limit > 80 {
      var start, notice := text[..limit - 60], CUT_PREFIX + Decimal(|text|) + CUT_SUFFIX;
      assert Fit(text, perToolLimit, remaining) == start + notice;
    }
  }

  function DigitValue(c: char): int {
    c as int - '0' as int
  }

  function DecimalValue(s: string): int {
    if s == "" then 0 else 10 * DecimalValue(s[..|s| - 1]) + DigitValue(s[|s| - 1])
  }

  /** The written length can be read back. */
  lemma {:induction false} DecimalReadsBack(n: nat)
    ensures DecimalValue(Decimal(n)) == n
  {
    if n < 10 {
      assert [Digit(n)][..0] == "";
    } else {
      DecimalReadsBack(n / 10);
      var s := Decimal(n);
      assert s[..|s| - 1] == Decimal(n / 10) && s[|s| - 1] == Digit(n % 10);
    }
  }

  lemma {:induction false} CutLength(text: string, limit: nat)
    requires 80 < limit < |text| < Pow10(LONGEST)
    ensures |text[..limit - 60] + CUT_PREFIX + Decimal(|text|) + CUT_SUFFIX| <= limit
  {
    NoticeLengths();
    DecimalLength(|text|, LONGEST);
  }

  /** The round's counter after fitting the texts in order. */
  function Charged(texts: seq<string>): nat {
    if texts == [] then 0
    else
      var before := Charged(texts[..|texts| - 1]);
      before + |Fit(texts[|texts| - 1], PER_TOOL, PER_ROUND - before)|
  }

  lemma {:induction false} ChargedAppend(texts: seq<string>, text: string)
    ensures Charged(texts + [text]) == Charged(texts) + |Fit(text, PER_TOOL, PER_ROUND - Charged(texts))|
  {
    assert (texts + [text])[..|texts|] == texts;
  }

  /** How many texts were fitted after the budget was used up. */
  function Late(texts: seq<string>): nat {
    if texts == [] then 0
    else Late(texts[..|texts| - 1]) + (if Charged(texts[..|texts| - 1]) >= PER_ROUND then 1 else 0)
  }

  ghost predicate Short(texts: seq<string>) {
    forall i | 0 <= i < |texts| :: |texts[i]| < Pow10(LONGEST)
  }

  /** The whole round: at most the budget, one overshoot of 13, and one 27-character notice per late text. */
  lemma {:induction false} ChargedBound(texts: seq<string>)
    requires Short(texts)
    ensures Charged(texts) <= 6000 + 13 + 27 * Late(texts)
    ensures Late(texts) > 0 ==> Charged(texts) >= 6000
    ensures Late(texts) <= |texts|
  {
    if texts != [] {
      var init := texts[..|texts| - 1];
      ChargedBound(init);
      FitLength(texts[|texts| - 1], PER_TOOL, PER_ROUND - Charged(init));
    }
  }

  /** Every late text, and no other, counts as late. */
  lemma {:induction false} LateStep(texts: seq<string>, text: string)
    ensures Late(texts + [text]) == Late(texts) + if Charged(texts) >= 6000 then 1 else 0
    ensures Late([]) == 0
  {
    assert (texts + [text])[..|texts|] == texts;
  }

  /** Once the budget is used up it stays used up, and every later text is answered by the omission notice. */
  lemma {:induction false} BudgetStaysUsed(texts: seq<string>, n: nat)
    requires n <= |texts| && Charged(texts[..n]) >= PER_ROUND
    ensures Charged(texts) == Charged(texts[..n]) + 27 * (|texts| - n)
    decreases |texts|
  {
    if n == |texts| {
      assert texts[..n] == texts;
    } else {
      var init := texts[..|texts| - 1];
      assert init[..n] == texts[..n];
      BudgetStaysUsed(init, n);
      NoticeLengths();
    }
  }
}

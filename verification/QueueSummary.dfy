/**
  Condensing two queued messages into one, and the count printed into it
  (src/gateway/command_queue.cpp, the summarize case of ApplyCapOverflow).
 */
module QueueSummary {
  import opened Text

  const INT_MAX := 2147483647
  const MARK := "[Queue summary:"
  const MARK_END := " messages]"
  const SNIPPET := 150

  predicate IsSummary(message: string) { MARK <= message }

  /** std::stoi: leading blanks, an optional sign, digits; None where it throws. */
  function Stoi(s: string): Option<int> {
    var t := TrimLeft(s);
    var signed := t != "" && (t[0] == '-' || t[0] == '+');
    var digits := DigitPrefix(if signed then t[1..] else t);
    if digits == "" then None
    else
      var value: int := DigitsValue(digits);
      var n := if signed && t[0] == '-' then -value else value;
      if -INT_MAX - 1 <= n <= INT_MAX then Some(n) else None
  }

  function DigitPrefix(s: string): (r: string)
    ensures AllDigits(r)
  {
    if s != "" && IsDigit(s[0]) then [s[0]] + DigitPrefix(s[1..]) else ""
  }

  lemma {:induction false} DigitPrefixOfDigits(s: string)
    requires AllDigits(s)
    ensures DigitPrefix(s) == s
  {
    if s != "" { DigitPrefixOfDigits(s[1..]); }
  }

  /** The text between the first ": " and the first " messages]", cut as substr cuts it. */
  function CountText(message: string, end: nat): Option<string>
    requires end <= |message|
  {
    var colon := Find(message, ": ", 0);
    var start := if colon.Some? then colon.value + 2 else 1; // npos + 2 wraps round to 1
    if start > |message| then None
    else if start <= end then Some(message[start..end])
    else Some(message[start..])
  }

  /** How many messages a queued text says it stands for. */
  function SummaryCount(message: string): int {
    if !IsSummary(message) then 1
    else
      match Find(message, MARK_END, 0)
      case None => 1
      case Some(end) =>
        match CountText(message, end)
        case None => 1
        case Some(text) => if Stoi(text).Some? then Stoi(text).value else 1
  }

  function Take(s: string, n: nat): string { if |s| <= n then s else s[..n] }

  function DecimalInt(n: int): string { if n < 0 then "-" + ToDecimal(-n) else ToDecimal(n) }

  /** The body kept from the older text: what follows its mark, or a snippet. */
  function Body(message: string): string {
    if !IsSummary(message) then Take(message, SNIPPET)
    else
      match Find(message, "] ", 0)
      case None => ""
      case Some(k) => message[k + 2..]
  }

  function Headed(count: int, rest: string): string {
    "[Queue summary: " + DecimalInt(count) + " messages] " + rest
  }

  function Merge(oldest: string, second: string): string {
    Headed(SummaryCount(oldest) + 1, Body(oldest) + " | " + Take(second, SNIPPET))
  }

  lemma HeadedSpaces(d: string, rest: string)
    requires d != "" && AllDigits(d)
    ensures var s := "[Queue summary: " + d + " messages] " + rest;
            && Find(s, MARK_END, 0) == Some(16 + |d|)
            && Find(s, ": ", 0) == Some(14)
            && s[16..16 + |d|] == d && MARK <= s
  {
    var head := "[Queue summary: ";
    var s := head + d + " messages] " + rest;
    assert |head| == 16 && s[..16] == head && s[16..16 + |d|] == d;
    assert s[16 + |d|..16 + |d| + 10] == MARK_END;
    forall k | 0 <= k < 16 + |d| ensures !OccursAt(s, MARK_END, k) {
      if k < 15 {
        assert s[k] == head[k] && s[k + 1] == head[k + 1];
        NotAt(s, MARK_END, k, if head[k] == ' ' then 1 else 0);
      } else if k == 15 {
        assert s[16] == d[0] && IsDigit(d[0]);
        NotAt(s, MARK_END, k, 1);
      } else {
        assert s[k] == d[k - 16] && IsDigit(d[k - 16]);
        NotAt(s, MARK_END, k, 0);
      }
    }
    FindFirst(s, MARK_END, 0, 16 + |d|);
    assert s[14..16] == ": " by { assert s[14] == head[14] && s[15] == head[15]; }
    forall k | 0 <= k < 14 ensures !OccursAt(s, ": ", k) {
      assert s[k] == head[k];
      NotAt(s, ": ", k, 0);
    }
    FindFirst(s, ": ", 0, 14);
  }

  /** The printed count reads back as the count. */
  lemma CountRoundTrip(n: nat, rest: string)
    requires n <= INT_MAX
    ensures IsSummary(Headed(n, rest)) && SummaryCount(Headed(n, rest)) == n
  {
    var d := ToDecimal(n);
    HeadedSpaces(d, rest);
    assert TrimLeft(d) == d by { assert IsDigit(d[0]); }
    DigitPrefixOfDigits(d);
    DecimalRoundTrip(n);
  }

  /** Merging adds one to the count, however the older text came about. */
  lemma MergeCounts(oldest: string, second: string)
    requires 0 <= SummaryCount(oldest) < INT_MAX
    ensures IsSummary(Merge(oldest, second)) && SummaryCount(Merge(oldest, second)) == SummaryCount(oldest) + 1
  {
    CountRoundTrip(SummaryCount(oldest) + 1, Body(oldest) + " | " + Take(second, SNIPPET));
  }
}

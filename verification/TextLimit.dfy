/** Cutting a message to a number of UTF-16 code units, as section 2.1 of RFC 2781 counts them. */
module TextLimit {
  import opened Strings

  function Units(c: char): (n: nat)
    ensures 1 <= n <= 2
  {
    if c as int < 0x10000 then 1 else 2
  }

  // utf16_len
  function Utf16Len(s: string): nat {
    if s == "" then 0 else Utf16Len(s[..|s| - 1]) + Units(s[|s| - 1])
  }

  lemma {:induction false} Utf16Concat(a: string, b: string)
    ensures Utf16Len(a + b) == Utf16Len(a) + Utf16Len(b)
  {
    if b == "" {
      assert a + b == a;
    } else {
      assert (a + b)[..|a + b| - 1] == a + b[..|b| - 1];
      Utf16Concat(a, b[..|b| - 1]);
    }
  }

  lemma {:induction false} PrefixIsShorter(s: string, m: nat, n: nat)
    requires m <= n <= |s|
    ensures Utf16Len(s[..n]) >= Utf16Len(s[..m]) + n - m
  {
    if m < n {
      PrefixIsShorter(s, m, n - 1);
      assert s[..n][..n - 1] == s[..n - 1];
    }
  }

  function Suffix(text: string): string {
    "\n…[输出已截断，共 " + Digits(|text|) + " 字符]"
  }

  // n is the length of the longest prefix of text within the budget.
  predicate LongestFit(text: string, budget: int, n: nat) {
    && n <= |text| && (n == 0 || Utf16Len(text[..n]) <= budget)
    && (n < |text| ==> Utf16Len(text[..n + 1]) > budget)
  }

  lemma {:induction false} LongestFitIsMaximal(text: string, budget: int, n: nat, m: nat)
    requires LongestFit(text, budget, n) && m <= |text| && Utf16Len(text[..m]) <= budget
    ensures m <= n
  {
    if m > n {
      PrefixIsShorter(text, n + 1, m);
    }
  }

  // s.count("`")
  function Ticks(s: string): nat {
    multiset(s)['`']
  }

  // Closing an inline code mark that the cut left open; `full` when there is no room for
  // the closing mark.
  function Closed(kept: string, full: bool): string
    requires full ==> kept != ""
  {
    (if full then kept[..|kept| - 1] else kept) + "`"
  }

  function Repaired(kept: string, budget: int): string {
    if Ticks(kept) % 2 == 0 then kept else Closed(kept, Utf16Len(kept) + 1 > budget)
  }

  // The result of cutting text, with n the number of characters kept before the repair.
  predicate IsTruncated(text: string, limit: int, r: string, n: nat) {
    if Utf16Len(text) <= limit then r == text
    else
      && LongestFit(text, limit - Utf16Len(Suffix(text)), n)
      && r == Repaired(text[..n], limit - Utf16Len(Suffix(text))) + Suffix(text)
  }

  // truncate_text
  method TruncateText(text: string, limit: int) returns (r: string)
    ensures exists n: nat :: IsTruncated(text, limit, r, n)
  {
    if Utf16Len(text) <= limit {
      assert IsTruncated(text, limit, text, 0);
      return text;
    }
    var suffix := Suffix(text);
    var budget := limit - Utf16Len(suffix);
    var used, i := 0, 0;
    while i < |text| && used + Units(text[i]) <= budget
      invariant 0 <= i <= |text| && used == Utf16Len(text[..i]) && (i == 0 || used <= budget)
    {
      used := used + Units(text[i]);
      i := i + 1;
      assert text[..i][..i - 1] == text[..i - 1];
    }
    assert i < |text| ==> text[..i + 1][..i] == text[..i];
    var truncated := text[..i];
    if Ticks(truncated) % 2 == 1 {
      if used + 1 > budget {
        truncated := truncated[..|truncated| - 1];
      }
      truncated := truncated + "`";
    }
    assert IsTruncated(text, limit, truncated + suffix, i);
    return truncated + suffix;
  }

  // A cut text ends in a notice with the number of characters it had.
  lemma NoticeTellsLength(text: string, limit: int, r: string, n: nat) returns (body: string, d: string)
    requires IsTruncated(text, limit, r, n) && Utf16Len(text) > limit
    ensures r == body + "\n…[输出已截断，共 " + d + " 字符]" && Value(d) == |text|
  {
    DigitsDenote(|text|);
    body, d := Repaired(text[..n], limit - Utf16Len(Suffix(text))), Digits(|text|);
    assert r == body + ("\n…[输出已截断，共 " + d + " 字符]");
  }

  lemma {:induction false} RepairedFits(kept: string, budget: int)
    requires kept == "" || Utf16Len(kept) <= budget
    ensures kept == "" ==> Repaired(kept, budget) == ""
    ensures kept != "" ==> Utf16Len(Repaired(kept, budget)) <= budget
  {
    if Ticks(kept) % 2 == 1 {
      var cut := if Utf16Len(kept) + 1 > budget then kept[..|kept| - 1] else kept;
      assert (cut + "`")[..|cut|] == cut;
    }
  }

  // The result is within the limit exactly when the text or the notice alone is.
  lemma {:induction false} FitsExactly(text: string, limit: int, r: string, n: nat)
    requires IsTruncated(text, limit, r, n)
    ensures Utf16Len(r) <= limit <==> Utf16Len(text) <= limit || Utf16Len(Suffix(text)) <= limit
  {
    if Utf16Len(text) > limit {
      var budget := limit - Utf16Len(Suffix(text));
      var kept := text[..n];
      RepairedFits(kept, budget);
      Utf16Concat(Repaired(kept, budget), Suffix(text));
    }
  }

  lemma {:induction false} NoticeHasNoTicks(text: string)
    ensures Ticks(Suffix(text)) == 0
  {
    DigitsAreDigits(|text|);
    assert '`' !in Suffix(text);
  }

  // Closing adds one mark, unless it replaces one.
  lemma {:induction false} ClosedTicks(kept: string, full: bool)
    requires kept != ""
    ensures Ticks(Closed(kept, full)) == Ticks(kept) + if full && kept[|kept| - 1] == '`' then 0 else 1
  {
    assert kept == kept[..|kept| - 1] + [kept[|kept| - 1]];
  }

  lemma {:induction false} RepairedTicks(kept: string, budget: int)
    ensures var replaced := Utf16Len(kept) + 1 > budget && kept != "" && kept[|kept| - 1] == '`';
      Ticks(Repaired(kept, budget)) == Ticks(kept) + if Ticks(kept) % 2 == 0 || replaced then 0 else 1
  {
    if Ticks(kept) % 2 == 1 {
      ClosedTicks(kept, Utf16Len(kept) + 1 > budget);
    }
  }

  lemma {:induction false} NoticeAddsNoTicks(body: string, text: string)
    ensures Ticks(body + Suffix(text)) == Ticks(body)
  {
    NoticeHasNoTicks(text);
  }

  lemma {:induction false} CutIsPaired(text: string, budget: int, n: nat)
    requires LongestFit(text, budget, n)
    ensures Ticks(Repaired(text[..n], budget)) % 2 == 1 <==>
      Ticks(text[..n]) % 2 == 1 && Utf16Len(text[..n]) == budget && text[n - 1] == '`'
  {
    RepairedTicks(text[..n], budget);
  }

  // A cut leaves an inline code mark open exactly when it had to drop one to make room for
  // the closing mark: the kept prefix has an odd number of marks, fills the budget and ends
  // in a mark.
  lemma {:induction false} PairedExactly(text: string, limit: int, r: string, n: nat)
    requires IsTruncated(text, limit, r, n) && Utf16Len(text) > limit
    ensures var budget := limit - Utf16Len(Suffix(text));
      Ticks(r) % 2 == 1 <==> Ticks(text[..n]) % 2 == 1 && Utf16Len(text[..n]) == budget && text[n - 1] == '`'
  {
    var budget := limit - Utf16Len(Suffix(text));
    CutIsPaired(text, budget, n);
    NoticeAddsNoTicks(Repaired(text[..n], budget), text);
  }
}

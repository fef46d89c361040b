/** Decimal text: printing numbers, padding them, cutting at dashes, and reading plain digits. */
module Decimal {
  import opened Common

  predicate IsDigit(c: char) {
    '0' <= c <= '9'
  }

  predicate AllDigits(s: string) {
    forall i :: 0 <= i < |s| ==> IsDigit(s[i])
  }

  function DigitChar(d: nat): (c: char)
    requires d < 10
    ensures IsDigit(c) && c as int == '0' as int + d
  {
    ('0' as int + d) as char
  }

  function Digits(n: nat): (s: string)
    ensures s != [] && AllDigits(s)
  {
    if n < 10 then [DigitChar(n)] else Digits(n / 10) + [DigitChar(n % 10)]
  }

  function Pad2(n: nat): (s: string)
    ensures s != [] && AllDigits(s)
  {
    if n < 10 then "0" + Digits(n) else Digits(n)
  }

  function Value(s: string): nat
    requires AllDigits(s)
  {
    if s == [] then 0 else 10 * Value(s[..|s| - 1]) + (s[|s| - 1] as int - '0' as int)
  }

  lemma {:induction false} ValueOfDigits(n: nat)
    ensures Value(Digits(n)) == n
  {
    if n >= 10 {
      ValueOfDigits(n / 10);
      assert Digits(n)[..|Digits(n)| - 1] == Digits(n / 10);
    }
  }

  lemma ValueOfPad2(n: nat)
    ensures Value(Pad2(n)) == n
  {
    ValueOfDigits(n);
    if n < 10 {
      assert Pad2(n)[..1] == "0" && "0"[..0] == "";
      assert Value("0") == 0;
    }
  }

  // ----- fields between dashes -----

  function Split(s: string): (r: seq<string>)
    ensures r != []
  {
    if s == [] then [[]]
    else
      var r := Split(s[1..]);
      if s[0] == '-' then [[]] + r else [[s[0]] + r[0]] + r[1..]
  }

  lemma {:induction false} SplitField(a: string, rest: string)
    requires '-' !in a
    ensures Split(a + "-" + rest) == [a] + Split(rest)
  {
    var s := a + "-" + rest;
    if a == [] {
      assert s[1..] == rest;
    } else {
      SplitField(a[1..], rest);
      assert s[1..] == a[1..] + "-" + rest;
      assert [s[0]] + a[1..] == a;
      assert ([a[1..]] + Split(rest))[1..] == Split(rest);
    }
  }

  lemma {:induction false} SplitLast(a: string)
    requires '-' !in a
    ensures Split(a) == [a]
  {
    if a != [] {
      SplitLast(a[1..]);
      assert [a[0]] + a[1..] == a;
    }
  }

  // ----- the larger of two event ids -----

  /** JavaScript's order on strings. */
  predicate StringAtLeast(a: string, b: string) {
    b == [] || (a != [] && (a[0] > b[0] || (a[0] == b[0] && StringAtLeast(a[1..], b[1..]))))
  }

  function MaxNumericString(a: Option<string>, b: Option<string>): Option<string> {
    if a.None? || a.value == "" then (if b.None? || b.value == "" then None else b)
    else if b.None? || b.value == "" then a
    else if AllDigits(a.value) && AllDigits(b.value) then (if Value(a.value) >= Value(b.value) then a else b)
    else if StringAtLeast(a.value, b.value) then a else b
  }

  predicate AllNumeric(ids: seq<string>) {
    forall id :: id in ids ==> AllDigits(id)
  }

  /**
   The loop's fold over the event ids, of which the empty ones are skipped before. It
   keeps one of them; when all are numeric, one of greatest value, the earliest such.
   */
  method LastEventId(ids: seq<string>) returns (last: Option<string>)
    requires "" !in ids
    ensures last.None? <==> ids == []
    ensures last.Some? ==> last.value in ids
    ensures last.Some? && AllNumeric(ids) ==>
              exists k :: 0 <= k < |ids| && last.value == ids[k]
                          && (forall i :: 0 <= i < |ids| ==> Value(ids[i]) <= Value(ids[k]))
                          && (forall i :: 0 <= i < k ==> Value(ids[i]) < Value(ids[k]))
  {
    last := None;
    ghost var at := 0;
    for n := 0 to |ids|
      invariant n == 0 <==> last.None?
      invariant last.Some? ==> last.value in ids && last.value != ""
      invariant last.Some? && AllNumeric(ids) ==> 0 <= at < n && last.value == ids[at]
      invariant last.Some? && AllNumeric(ids) ==> forall i :: 0 <= i < n ==> Value(ids[i]) <= Value(ids[at])
      invariant last.Some? && AllNumeric(ids) ==> forall i :: 0 <= i < at ==> Value(ids[i]) < Value(ids[at])
    {
      assert ids[n] in ids;
      if last.None? || !AllDigits(last.value) || !AllDigits(ids[n]) || Value(last.value) < Value(ids[n]) {
        at := n;
      }
      last := MaxNumericString(last, Some(ids[n]));
    }
  }
}

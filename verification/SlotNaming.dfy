/** Slot ids, branch names and worktree paths of slot.rs, which keep only the last six
    characters of an id: exactly when two of them collide. */
module SlotNaming {
  import opened Slug

  // ---------------------------------------------------------------------------
  // Decimal numerals
  // ---------------------------------------------------------------------------

  function DigitChar(d: nat): (c: char)
    requires d < 10
    ensures Digit(c)
  {
    ('0' as int + d) as char
  }

  /** `format!("{n}")` */
  function Decimal(n: nat): string {
    if n < 10 then [DigitChar(n)] else Decimal(n / 10) + [DigitChar(n % 10)]
  }

  ghost predicate AllDigits(s: string) {
    forall i :: 0 <= i < |s| ==> Digit(s[i])
  }

  function Value(s: string): nat
    requires AllDigits(s)
  {
    if s == "" then 0 else 10 * Value(s[..|s| - 1]) + (s[|s| - 1] as int - '0' as int)
  }

  lemma {:induction false} DecimalDigits(n: nat)
    ensures Decimal(n) != "" && AllDigits(Decimal(n)) && Value(Decimal(n)) == n
  {
    if n < 10 {
      assert Decimal(n)[..0] == "";
    } else {
      DecimalDigits(n / 10);
      assert Decimal(n)[..|Decimal(n)| - 1] == Decimal(n / 10);
    }
  }

  function Pow10(k: nat): (r: nat)
    ensures r > 0
  {
    if k == 0 then 1 else 10 * Pow10(k - 1)
  }

  lemma {:induction false} DecimalLength(n: nat, k: nat)
    ensures |Decimal(n)| > k <==> k == 0 || n >= Pow10(k)
  {
    if k > 0 {
      if n < 10 { assert Pow10(k) >= 10; } else { DecimalLength(n / 10, k - 1); }
    }
  }

  lemma ValueSnoc(s: string, c: char)
    requires AllDigits(s) && Digit(c)
    ensures AllDigits(s + [c]) && Value(s + [c]) == 10 * Value(s) + (c as int - '0' as int)
  {
    assert (s + [c])[..|s|] == s;
  }

  lemma TimesTen(x: nat, p: nat)
    ensures x * (10 * p) == 10 * (x * p)
  {
  }

  lemma {:induction false} ValueConcat(a: string, b: string)
    requires AllDigits(a) && AllDigits(b)
    ensures AllDigits(a + b) && Value(a + b) == Value(a) * Pow10(|b|) + Value(b) && Value(b) < Pow10(|b|)
    decreases |b|
  {
    if b == "" {
      assert a + b == a;
    } else {
      var init, c := b[..|b| - 1], b[|b| - 1];
      assert b == init + [c] && a + b == (a + init) + [c];
      ValueConcat(a, init);
      ValueSnoc(init, c);
      ValueSnoc(a + init, c);
      TimesTen(Value(a), Pow10(|init|));
    }
  }

  lemma {:induction false} SameValue(a: string, b: string)
    requires AllDigits(a) && AllDigits(b) && |a| == |b| && Value(a) == Value(b)
    ensures a == b
  {
    if a != "" {
      var x, y := a[..|a| - 1], b[..|b| - 1];
      SameValue(x, y);
      assert a == x + [a[|a| - 1]] && b == y + [b[|b| - 1]];
    }
  }

  // ---------------------------------------------------------------------------
  // Names
  // ---------------------------------------------------------------------------

  /** `format!("{ts}-{seq}")` */
  function Suffix(ts: nat, n: nat): string { Decimal(ts) + "-" + Decimal(n) }

  function SlotId(repoId: string, taskName: string, suffix: string): string {
    repoId + "-" + SlotSlug(taskName) + "-" + suffix
  }

  function ShortSuffix(id: string): string {
    if |id| > 6 then id[|id| - 6..] else id
  }

  function BranchName(taskName: string, slotId: string): string {
    "awo/" + SlotSlug(taskName) + "/" + ShortSuffix(slotId)
  }

  function SlotPath(root: string, taskName: string, slotId: string): string {
    root + "/" + SlotSlug(taskName) + "-" + ShortSuffix(slotId)
  }

  /** The process-wide counter behind `unique_millis`. */
  class SlotNamer {
    var next: nat

    constructor ()
      ensures next == 0
    {
      next := 0;
    }

    /** `ts` is the clock reading in milliseconds. */
    method UniqueMillis(ts: nat) returns (r: string)
      modifies this
      ensures r == Suffix(ts, old(next)) && next == old(next) + 1
    {
      var n := next;
      next := next + 1;
      r := Decimal(ts) + "-" + Decimal(n);
    }

    method BuildSlotId(repoId: string, taskName: string, ts: nat) returns (r: string)
      modifies this
      ensures r == SlotId(repoId, taskName, Suffix(ts, old(next))) && next == old(next) + 1
    {
      var suffix := UniqueMillis(ts);
      var slug := SlotSlugify(taskName);
      r := repoId + "-" + slug + "-" + suffix;
    }
  }

  // ---------------------------------------------------------------------------
  // Collisions
  // ---------------------------------------------------------------------------

  /** The longest suffix of digits. */
  function DigitTail(s: string): string {
    if s != "" && Digit(s[|s| - 1]) then DigitTail(s[..|s| - 1]) + [s[|s| - 1]] else ""
  }

  lemma {:induction false} DigitTailAfter(s: string, c: char, digits: string)
    requires !Digit(c) && AllDigits(digits)
    ensures DigitTail(s + [c] + digits) == digits
    decreases |digits|
  {
    var t := s + [c] + digits;
    if digits == "" {
      assert t[|t| - 1] == c;
    } else {
      var init := digits[..|digits| - 1];
      DigitTailAfter(s, c, init);
      assert t[..|t| - 1] == s + [c] + init;
      assert digits == init + [digits[|digits| - 1]];
    }
  }

  /** The part of a counter's numeral that survives the truncation to six characters. */
  function Kept(n: nat): string { ShortSuffix(Decimal(n)) }

  lemma SixDigitsIff(n: nat)
    ensures |Decimal(n)| > 5 <==> n >= 100000
  {
    DecimalLength(n, 5);
    PowersOfTen();
  }

  lemma PowersOfTen()
    ensures Pow10(5) == 100000 && Pow10(6) == 1000000
  {
  }

  /** Any string ending in `-n` keeps, after truncation, `-n` or the last six digits of n. */
  lemma ShortSuffixShape(x: string, n: nat) returns (p: string)
    ensures ShortSuffix(x + "-" + Decimal(n)) == if n < 100000 then p + "-" + Decimal(n) else Kept(n)
  {
    SixDigitsIff(n);
    p := SuffixShape(x, Decimal(n));
  }

  lemma SuffixShape(x: string, d: string) returns (p: string)
    ensures ShortSuffix(x + "-" + d) == if |d| <= 5 then p + "-" + d else ShortSuffix(d)
  {
    var id := x + "-" + d;
    p := if |id| > 6 && |d| <= 5 then x[|id| - 6..] else x;
    if |id| > 6 {
      if |d| <= 5 { assert id[|id| - 6..] == p + "-" + d; } else { assert id[|id| - 6..] == d[|d| - 6..]; }
    }
  }

  /** Whatever precedes the truncated id, if it ends in a non-digit, the digits at the very end
      are the surviving digits of the counter. */
  lemma TailIsKept(prefix: string, x: string, n: nat)
    requires prefix != "" && !Digit(prefix[|prefix| - 1])
    ensures DigitTail(prefix + ShortSuffix(x + "-" + Decimal(n))) == Kept(n)
  {
    DecimalDigits(n);
    SixDigitsIff(n);
    var d := Decimal(n);
    var p := SuffixShape(x, d);
    if |d| <= 5 { ShortTail(prefix, p, d); } else { LongTail(prefix, ShortSuffix(d)); }
  }

  lemma ShortTail(prefix: string, p: string, d: string)
    requires AllDigits(d)
    ensures DigitTail(prefix + (p + "-" + d)) == d
  {
    DigitTailAfter(prefix + p, '-', d);
    assert prefix + (p + "-" + d) == prefix + p + ['-'] + d;
  }

  lemma LongTail(prefix: string, d: string)
    requires prefix != "" && !Digit(prefix[|prefix| - 1]) && AllDigits(d)
    ensures DigitTail(prefix + d) == d
  {
    var init := prefix[..|prefix| - 1];
    DigitTailAfter(init, prefix[|prefix| - 1], d);
    assert prefix == init + [prefix[|prefix| - 1]];
  }

  /** Two counters lose their difference exactly when both have at least six digits and agree
      in the last six. */
  predicate Confusable(a: nat, b: nat) {
    a >= 100000 && b >= 100000 && a % 1000000 == b % 1000000
  }

  lemma KeptValue(n: nat)
    ensures AllDigits(Kept(n))
    ensures n >= 100000 ==> |Kept(n)| == 6 && Value(Kept(n)) == n % 1000000
    ensures n < 100000 ==> |Kept(n)| < 6 && Value(Kept(n)) == n
  {
    DecimalDigits(n);
    SixDigitsIff(n);
    if n >= 100000 { LongKept(n, 6); }
  }

  lemma LongKept(n: nat, k: nat)
    requires k == 6 && |Decimal(n)| >= k && AllDigits(Decimal(n)) && Value(Decimal(n)) == n
    ensures |Kept(n)| == 6 && AllDigits(Kept(n)) && Value(Kept(n)) == n % 1000000
  {
    var d := Decimal(n);
    assert Kept(n) == d[|d| - k..];
    var high := TailValue(d, k);
    PowersOfTen();
    LowDigits(high, Value(Kept(n)), n);
  }

  lemma TailValue(d: string, k: nat) returns (high: nat)
    requires AllDigits(d) && |d| >= k
    ensures AllDigits(d[|d| - k..])
    ensures Value(d) == high * Pow10(k) + Value(d[|d| - k..]) && Value(d[|d| - k..]) < Pow10(k)
  {
    var a, b := d[..|d| - k], d[|d| - k..];
    ValueConcat(a, b);
    assert a + b == d;
    high := Value(a);
  }

  lemma LowDigits(high: nat, low: nat, n: nat)
    requires n == high * 1000000 + low && low < 1000000
    ensures n % 1000000 == low
  {
  }

  lemma KeptEqualIff(a: nat, b: nat)
    ensures Kept(a) == Kept(b) <==> a == b || Confusable(a, b)
  {
    KeptValue(a);
    KeptValue(b);
    if Confusable(a, b) { SameValue(Kept(a), Kept(b)); }
  }

  /** The full id, seen as something followed by a dash and the counter. */
  lemma IdEndsInCounter(repoId: string, taskName: string, ts: nat, n: nat)
    ensures SlotId(repoId, taskName, Suffix(ts, n)) ==
            (repoId + "-" + SlotSlug(taskName) + "-" + Decimal(ts)) + "-" + Decimal(n)
  {
    var slug := SlotSlug(taskName);
    assert repoId + "-" + slug + "-" + (Decimal(ts) + "-" + Decimal(n)) ==
           (repoId + "-" + slug + "-" + Decimal(ts)) + "-" + Decimal(n);
  }

  lemma SameEnds(x1: string, x2: string, tail: string)
    requires x1 + tail == x2 + tail
    ensures x1 == x2
  {
    assert |x1| == |x2|;
    assert x1 == (x1 + tail)[..|x1|] && x2 == (x2 + tail)[..|x2|];
  }

  lemma SameStarts(head: string, x1: string, x2: string)
    requires head + x1 == head + x2
    ensures x1 == x2
  {
    assert x1 == (head + x1)[|head|..] && x2 == (head + x2)[|head|..];
  }

  /** One slot request: repository, task name and clock reading. */
  datatype Request = Request(repoId: string, taskName: string, ts: nat)

  function IdOf(r: Request, n: nat): string { SlotId(r.repoId, r.taskName, Suffix(r.ts, n)) }

  function BranchOf(r: Request, n: nat): string { BranchName(r.taskName, IdOf(r, n)) }

  function PathOf(root: string, r: Request, n: nat): string { SlotPath(root, r.taskName, IdOf(r, n)) }

  /** Names built from a prefix that carries the slug and ends in a separator. */
  lemma PrefixedNamesCollideIff(h1: string, r: Request, a: nat, h2: string, s: Request, b: nat)
    requires h1 != "" && !Digit(h1[|h1| - 1]) && h2 != "" && !Digit(h2[|h2| - 1])
    requires a != b
    ensures h1 + ShortSuffix(IdOf(r, a)) == h2 + ShortSuffix(IdOf(s, b)) <==> h1 == h2 && Confusable(a, b)
  {
    IdEndsInCounter(r.repoId, r.taskName, r.ts, a);
    IdEndsInCounter(s.repoId, s.taskName, s.ts, b);
    var x := r.repoId + "-" + SlotSlug(r.taskName) + "-" + Decimal(r.ts);
    var y := s.repoId + "-" + SlotSlug(s.taskName) + "-" + Decimal(s.ts);
    TailIsKept(h1, x, a);
    TailIsKept(h2, y, b);
    KeptEqualIff(a, b);
    if Confusable(a, b) {
      var p := ShortSuffixShape(x, a);
      var q := ShortSuffixShape(y, b);
      if h1 + Kept(a) == h2 + Kept(b) { SameEnds(h1, h2, Kept(a)); }
    }
  }

  /** Two slots built in one process, with any repositories, task names and clock readings, get
      the same branch exactly when their task names have the same slug and their counters are
      confusable. */
  lemma BranchesCollideIff(r: Request, a: nat, s: Request, b: nat)
    requires a != b
    ensures BranchOf(r, a) == BranchOf(s, b) <==> SlotSlug(r.taskName) == SlotSlug(s.taskName) && Confusable(a, b)
  {
    ReusedBranchesCollideIff(r.taskName, r, a, s.taskName, s, b);
  }

  /** The same for worktree paths under one root. */
  lemma PathsCollideIff(root: string, r: Request, a: nat, s: Request, b: nat)
    requires a != b
    ensures PathOf(root, r, a) == PathOf(root, s, b) <==>
            SlotSlug(r.taskName) == SlotSlug(s.taskName) && Confusable(a, b)
  {
    var h1, h2 := root + "/" + SlotSlug(r.taskName) + "-", root + "/" + SlotSlug(s.taskName) + "-";
    PrefixedNamesCollideIff(h1, r, a, h2, s, b);
    if h1 == h2 {
      SameEnds(root + "/" + SlotSlug(r.taskName), root + "/" + SlotSlug(s.taskName), "-");
      SameStarts(root + "/", SlotSlug(r.taskName), SlotSlug(s.taskName));
    }
  }

  /** The first million slots of a process have pairwise distinct branches and paths. */
  lemma FirstMillionDistinct(root: string, requests: seq<Request>, i: nat, j: nat)
    requires |requests| <= 1000000 && i < j < |requests|
    ensures BranchOf(requests[i], i) != BranchOf(requests[j], j)
    ensures PathOf(root, requests[i], i) != PathOf(root, requests[j], j)
  {
    BranchesCollideIff(requests[i], i, requests[j], j);
    PathsCollideIff(root, requests[i], i, requests[j], j);
  }

  lemma ConfusableLater(n: nat)
    requires n >= 100000
    ensures Confusable(n, n + 1000000)
  {
  }

  /** The bound is sharp: from the 100000th slot on, the same task name collides with itself a
      million slots later, under any repositories and clock readings. */
  lemma MillionLaterCollides(root: string, taskName: string, r1: string, ts1: nat, r2: string, ts2: nat, n: nat)
    requires n >= 100000
    ensures BranchOf(Request(r1, taskName, ts1), n) == BranchOf(Request(r2, taskName, ts2), n + 1000000)
    ensures PathOf(root, Request(r1, taskName, ts1), n) == PathOf(root, Request(r2, taskName, ts2), n + 1000000)
  {
    ConfusableLater(n);
    BranchesCollideIff(Request(r1, taskName, ts1), n, Request(r2, taskName, ts2), n + 1000000);
    PathsCollideIff(root, Request(r1, taskName, ts1), n, Request(r2, taskName, ts2), n + 1000000);
  }

  // ---------------------------------------------------------------------------
  // Equal counters: slots of different processes
  // ---------------------------------------------------------------------------

  /** How many digits of the clock reading survive before a counter of fewer than six digits: five
      minus its own length. */
  function ClockDigits(n: nat): (k: nat)
    requires n < 100000
    ensures k <= 4
  {
    DecimalDigits(n);
    SixDigitsIff(n);
    5 - |Decimal(n)|
  }

  /** The number that the last `k` decimal digits form. */
  function LowPart(n: nat, k: nat): nat {
    if k == 0 then 0 else 10 * LowPart(n / 10, k - 1) + n % 10
  }

  lemma TwoLowDigits(n: nat)
    ensures LowPart(n, 2) == n % 100
  {
    assert LowPart(n / 10, 1) == 10 * LowPart(n / 10 / 10, 0) + n / 10 % 10;
  }

  lemma ThreeLowDigits(n: nat)
    ensures LowPart(n, 3) == n % 1000
  {
    TwoLowDigits(n / 10);
  }

  /** For a counter below ten: the last four digits of the clock. */
  lemma FourLowDigits(n: nat)
    ensures LowPart(n, 4) == n % 10000
  {
    ThreeLowDigits(n / 10);
  }

  function LastDigits(n: nat, k: nat): string
    requires k <= |Decimal(n)|
  {
    Decimal(n)[|Decimal(n)| - k..]
  }

  lemma TailSnoc(s: string, c: char, k: nat)
    requires 0 < k <= |s| + 1
    ensures (s + [c])[|s| + 1 - k..] == s[|s| - (k - 1)..] + [c]
  {
  }

  lemma LastDigitsNext(n: nat, k: nat)
    requires 0 < k <= |Decimal(n)| && n >= 10
    ensures LastDigits(n, k) == LastDigits(n / 10, k - 1) + [DigitChar(n % 10)]
  {
    TailSnoc(Decimal(n / 10), DigitChar(n % 10), k);
  }

  /** The last `k` digits of `n` have the value of its low part. */
  ghost predicate Agrees(n: nat, k: nat)
    requires k <= |Decimal(n)|
  {
    AllDigits(LastDigits(n, k)) && Value(LastDigits(n, k)) == LowPart(n, k)
  }

  lemma NoDigitAgrees(n: nat)
    ensures Agrees(n, 0)
  {
    assert LastDigits(n, 0) == "";
  }

  lemma OneDigitAgrees(n: nat)
    requires n < 10
    ensures |Decimal(n)| == 1 && Agrees(n, 1)
  {
    var s := [DigitChar(n)];
    assert LastDigits(n, 1) == s && s[..0] == "";
    assert LowPart(n / 10, 0) == 0;
  }

  lemma NextDigitAgrees(n: nat, k: nat)
    requires n >= 10 && 0 < k <= |Decimal(n)| && k - 1 <= |Decimal(n / 10)| && Agrees(n / 10, k - 1)
    ensures Agrees(n, k)
  {
    LastDigitsNext(n, k);
    ValueSnoc(LastDigits(n / 10, k - 1), DigitChar(n % 10));
  }

  lemma {:induction false} LastDigitsValue(n: nat, k: nat)
    requires k <= |Decimal(n)|
    ensures Agrees(n, k)
    decreases k
  {
    if k == 0 {
      NoDigitAgrees(n);
    } else if n < 10 {
      OneDigitAgrees(n);
    } else {
      LastDigitsValue(n / 10, k - 1);
      NextDigitAgrees(n, k);
    }
  }

  lemma LastDigitsEqualIff(a: nat, b: nat, k: nat)
    requires k <= |Decimal(a)| && k <= |Decimal(b)|
    ensures LastDigits(a, k) == LastDigits(b, k) <==> LowPart(a, k) == LowPart(b, k)
  {
    LastDigitsValue(a, k);
    LastDigitsValue(b, k);
    if LowPart(a, k) == LowPart(b, k) { SameValue(LastDigits(a, k), LastDigits(b, k)); }
  }

  /** What precedes the counter in an id. */
  function Stem(r: Request): string { r.repoId + "-" + SlotSlug(r.taskName) + "-" + Decimal(r.ts) }

  function LastChars(s: string, k: nat): string {
    if |s| > k then s[|s| - k..] else s
  }

  /** What of the stem survives the truncation, before a counter of fewer than six digits. */
  function ClockTail(r: Request, n: nat): string
    requires n < 100000
  {
    LastChars(Stem(r), ClockDigits(n))
  }

  lemma ShortSuffixWithClock(r: Request, n: nat)
    requires n < 100000
    ensures ShortSuffix(IdOf(r, n)) == ClockTail(r, n) + ("-" + Decimal(n))
  {
    IdEndsInCounter(r.repoId, r.taskName, r.ts, n);
    var id, x, d, k := IdOf(r, n), Stem(r), Decimal(n), ClockDigits(n);
    assert id == x + "-" + d && |d| == 5 - k && x + ("-" + d) == id;
    if |x| > k {
      assert |id| > 6 && id[|id| - 6..] == x[|x| - k..] + ("-" + d);
    }
  }

  /** Equal counters are told apart by the stem only as far as it survives. */
  predicate SameMoment(r: Request, s: Request, n: nat) {
    n >= 100000 || ClockTail(r, n) == ClockTail(s, n)
  }

  lemma SameCounterSuffixIff(r: Request, s: Request, n: nat)
    ensures ShortSuffix(IdOf(r, n)) == ShortSuffix(IdOf(s, n)) <==> SameMoment(r, s, n)
    ensures n >= 100000 ==> |ShortSuffix(IdOf(r, n))| == |ShortSuffix(IdOf(s, n))|
  {
    if n < 100000 {
      ShortSuffixWithClock(r, n);
      ShortSuffixWithClock(s, n);
      if ShortSuffix(IdOf(r, n)) == ShortSuffix(IdOf(s, n)) {
        SameEnds(ClockTail(r, n), ClockTail(s, n), "-" + Decimal(n));
      }
    } else {
      IdEndsInCounter(r.repoId, r.taskName, r.ts, n);
      IdEndsInCounter(s.repoId, s.taskName, s.ts, n);
      var p := ShortSuffixShape(Stem(r), n);
      p := ShortSuffixShape(Stem(s), n);
    }
  }

  /** A surviving part shorter than another comes from a stem without repository and slug. */
  lemma ShorterTail(r: Request, s: Request, n: nat)
    requires n < 100000 && |ClockTail(r, n)| < |ClockTail(s, n)|
    ensures SlotSlug(r.taskName) == "" && |ClockTail(s, n)| == |ClockTail(r, n)| + 1
  {
    DecimalDigits(r.ts);
    assert |Stem(r)| == |r.repoId| + |SlotSlug(r.taskName)| + |Decimal(r.ts)| + 2;
    assert |Stem(r)| < ClockDigits(n) <= 4;
  }

  lemma SplitEqualIff(h1: string, x1: string, h2: string, x2: string)
    requires |x1| == |x2|
    ensures h1 + x1 == h2 + x2 <==> h1 == h2 && x1 == x2
  {
    if h1 + x1 == h2 + x2 {
      assert |h1| == |h2|;
      assert h1 == (h1 + x1)[..|h1|] && h2 == (h2 + x2)[..|h2|];
      SameStarts(h1, x1, x2);
    }
  }

  /** Names that consist of a common beginning, the slug, a separator and the truncated id. */
  lemma SameCounterNamesIff(pre: string, sep: string, r: Request, s: Request, n: nat)
    ensures pre + SlotSlug(r.taskName) + sep + ShortSuffix(IdOf(r, n)) ==
            pre + SlotSlug(s.taskName) + sep + ShortSuffix(IdOf(s, n))
            <==> SlotSlug(r.taskName) == SlotSlug(s.taskName) && SameMoment(r, s, n)
  {
    var t, u, x, y := SlotSlug(r.taskName), SlotSlug(s.taskName), ShortSuffix(IdOf(r, n)), ShortSuffix(IdOf(s, n));
    SameCounterSuffixIff(r, s, n);
    if |x| == |y| {
      SplitEqualIff(pre + t + sep, x, pre + u + sep, y);
      SplitEqualIff(pre + t, sep, pre + u, sep);
      if pre + t == pre + u { SameStarts(pre, t, u); }
    } else {
      ShortSuffixWithClock(r, n);
      ShortSuffixWithClock(s, n);
      if |x| < |y| { ShorterTail(r, s, n); } else { ShorterTail(s, r, n); }
      assert |pre + t + sep + x| == |pre| + |t| + |sep| + |x| && |pre + u + sep + y| == |pre| + |u| + |sep| + |y|;
    }
  }

  /** Two slots with the same counter, which two processes that both count from zero will build,
      get the same branch, and the same path under one root, exactly when their task names have the
      same slug and the truncation leaves the same of what precedes the counter. */
  lemma SameCounterCollidesIff(root: string, r: Request, s: Request, n: nat)
    ensures BranchOf(r, n) == BranchOf(s, n) <==> SlotSlug(r.taskName) == SlotSlug(s.taskName) && SameMoment(r, s, n)
    ensures PathOf(root, r, n) == PathOf(root, s, n) <==>
            SlotSlug(r.taskName) == SlotSlug(s.taskName) && SameMoment(r, s, n)
  {
    SameCounterNamesIff("awo/", "/", r, s, n);
    SameCounterNamesIff(root + "/", "-", r, s, n);
  }

  /** A clock that has run for a second since the epoch reads at least four digits. */
  lemma FourDigits(ts: nat)
    requires ts >= 1000
    ensures |Decimal(ts)| >= 4
  {
    DecimalLength(ts, 3);
    assert Pow10(3) == 10 * Pow10(2);
  }

  /** From a second after the epoch on, what survives is the last digits of the clock. */
  lemma ClockTailIsDigits(r: Request, n: nat)
    requires n < 100000 && r.ts >= 1000
    ensures ClockDigits(n) <= |Decimal(r.ts)| && ClockTail(r, n) == LastDigits(r.ts, ClockDigits(n))
  {
    FourDigits(r.ts);
    var x, k := Stem(r), ClockDigits(n);
    assert |x| > k && x[|x| - k..] == LastDigits(r.ts, k);
  }

  /** For the first ten slots of two processes: they collide exactly when the slugs agree and the
      clock readings agree in the last four digits, a multiple of ten seconds apart. */
  lemma FirstTenCollideIff(root: string, r: Request, s: Request, n: nat)
    requires n < 10 && r.ts >= 1000 && s.ts >= 1000
    ensures BranchOf(r, n) == BranchOf(s, n) <==>
            SlotSlug(r.taskName) == SlotSlug(s.taskName) && r.ts % 10000 == s.ts % 10000
    ensures PathOf(root, r, n) == PathOf(root, s, n) <==>
            SlotSlug(r.taskName) == SlotSlug(s.taskName) && r.ts % 10000 == s.ts % 10000
  {
    SameCounterCollidesIff(root, r, s, n);
    assert ClockDigits(n) == 4;
    ClockTailIsDigits(r, n);
    ClockTailIsDigits(s, n);
    LastDigitsEqualIff(r.ts, s.ts, 4);
    FourLowDigits(r.ts);
    FourLowDigits(s.ts);
  }

  // ---------------------------------------------------------------------------
  // Reused slots
  // ---------------------------------------------------------------------------

  /** A warm slot that is reused keeps its id and gets a branch for the new task's name. Branches of
      slots with different counters, reused or not, collide exactly when the names of the tasks
      they now serve have the same slug and the counters are confusable. */
  lemma ReusedBranchesCollideIff(task1: string, r: Request, a: nat, task2: string, s: Request, b: nat)
    requires a != b
    ensures BranchName(task1, IdOf(r, a)) == BranchName(task2, IdOf(s, b)) <==>
            SlotSlug(task1) == SlotSlug(task2) && Confusable(a, b)
  {
    var h1, h2 := "awo/" + SlotSlug(task1) + "/", "awo/" + SlotSlug(task2) + "/";
    PrefixedNamesCollideIff(h1, r, a, h2, s, b);
    if h1 == h2 {
      SameEnds("awo/" + SlotSlug(task1), "awo/" + SlotSlug(task2), "/");
      SameStarts("awo/", SlotSlug(task1), SlotSlug(task2));
    }
  }

  /** One slot gets a branch again that it has had before exactly for a name with the same slug. */
  lemma ReuseRepeatsBranchIff(task1: string, task2: string, slotId: string)
    ensures BranchName(task1, slotId) == BranchName(task2, slotId) <==> SlotSlug(task1) == SlotSlug(task2)
  {
    var t, u := SlotSlug(task1), SlotSlug(task2);
    SplitEqualIff("awo/" + t + "/", ShortSuffix(slotId), "awo/" + u + "/", ShortSuffix(slotId));
    SplitEqualIff("awo/" + t, "/", "awo/" + u, "/");
    if "awo/" + t == "awo/" + u { SameStarts("awo/", t, u); }
  }
}

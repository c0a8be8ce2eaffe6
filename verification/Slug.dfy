/** The two `slugify` loops (slot.rs and repo.rs) against the words of their input. */
module Slug {

  predicate Lower(c: char) { 'a' <= c <= 'z' }

  predicate Upper(c: char) { 'A' <= c <= 'Z' }

  predicate Digit(c: char) { '0' <= c <= '9' }

  predicate AlphaNum(c: char) { Lower(c) || Upper(c) || Digit(c) }

  function ToLower(c: char): char {
    if Upper(c) then ((c as int - 'A' as int) + 'a' as int) as char else c
  }

  predicate EndsInWord(s: string) { s != "" && AlphaNum(s[|s| - 1]) }

  /** The words once `c` is read: `open` says whether a word is under way. */
  function Extend(words: seq<string>, open: bool, c: char): seq<string>
    requires open ==> words != []
  {
    if !AlphaNum(c) then words
    else if open then words[..|words| - 1] + [words[|words| - 1] + [ToLower(c)]]
    else words + [[ToLower(c)]]
  }

  /** The maximal ASCII-alphanumeric runs of `s`, lower-cased, in order. */
  function Words(s: string): (r: seq<string>)
    ensures EndsInWord(s) ==> r != []
  {
    if s == "" then [] else Extend(Words(s[..|s| - 1]), EndsInWord(s[..|s| - 1]), s[|s| - 1])
  }

  lemma WordsSnoc(s: string, c: char)
    ensures Words(s + [c]) == Extend(Words(s), EndsInWord(s), c)
  {
    assert (s + [c])[..|s|] == s;
  }

  function Join(words: seq<string>): string {
    if |words| == 0 then ""
    else if |words| == 1 then words[0]
    else Join(words[..|words| - 1]) + "-" + words[|words| - 1]
  }

  /** repo.rs: the words joined by single dashes. */
  function RepoSlug(s: string): string { Join(Words(s)) }

  /** slot.rs: the same, but the empty input becomes `task`. */
  function SlotSlug(s: string): string { if s == "" then "task" else Join(Words(s)) }

  function TrimStart(s: string): string {
    if s != "" && s[0] == '-' then TrimStart(s[1..]) else s
  }

  function TrimEnd(s: string): string {
    if s != "" && s[|s| - 1] == '-' then TrimEnd(s[..|s| - 1]) else s
  }

  /** `trim_matches('-')` */
  function Trim(s: string): string { TrimEnd(TrimStart(s)) }

  // ---------------------------------------------------------------------------
  // Words
  // ---------------------------------------------------------------------------

  predicate SlugChar(c: char) { Lower(c) || Digit(c) }

  ghost predicate IsWord(w: string) {
    w != "" && forall i :: 0 <= i < |w| ==> SlugChar(w[i])
  }

  ghost predicate AreWords(words: seq<string>) {
    forall i :: 0 <= i < |words| ==> IsWord(words[i])
  }

  lemma {:induction false} WordsAreWords(s: string)
    ensures AreWords(Words(s))
  {
    if s != "" { WordsAreWords(s[..|s| - 1]); }
  }

  lemma {:induction false} WordsOfWord(w: string)
    requires IsWord(w)
    ensures Words(w) == [w]
  {
    var init, c := w[..|w| - 1], w[|w| - 1];
    assert w == init + [c];
    WordsSnoc(init, c);
    if init != "" {
      assert IsWord(init);
      WordsOfWord(init);
      assert EndsInWord(init);
    }
  }

  lemma SameEnd(a: string, b: string)
    requires !EndsInWord(a)
    ensures EndsInWord(a + b) == EndsInWord(b)
  {
    if b == "" { assert a + b == a; } else { assert (a + b)[|a + b| - 1] == b[|b| - 1]; }
  }

  /** A separator splits the words. */
  lemma {:induction false} WordsSplit(a: string, c: char, b: string)
    requires !AlphaNum(c)
    ensures Words(a + [c] + b) == Words(a) + Words(b)
    decreases |b|
  {
    var ac := a + [c];
    WordsSnoc(a, c);
    if b == "" {
      assert ac + b == ac;
    } else {
      var init, d := b[..|b| - 1], b[|b| - 1];
      WordsSplit(a, c, init);
      assert b == init + [d] && ac + b == (ac + init) + [d];
      WordsSnoc(ac + init, d);
      WordsSnoc(init, d);
      SameEnd(ac, init);
      ExtendSuffix(Words(a), Words(init), EndsInWord(init), d);
    }
  }

  lemma ExtendSuffix(a: seq<string>, b: seq<string>, open: bool, c: char)
    requires open ==> b != []
    ensures Extend(a + b, open, c) == a + Extend(b, open, c)
  {
    if open && AlphaNum(c) {
      assert (a + b)[..|a + b| - 1] == a + b[..|b| - 1];
    }
  }

  lemma JoinSnoc(words: seq<string>, w: string)
    ensures Join(words + [w]) == if words == [] then w else Join(words) + "-" + w
  {
    assert (words + [w])[..|words|] == words;
  }

  /** Joining and splitting are inverse. */
  lemma {:induction false} WordsOfJoin(words: seq<string>)
    requires AreWords(words)
    ensures Words(Join(words)) == words
  {
    if |words| > 0 {
      var init, last := words[..|words| - 1], words[|words| - 1];
      assert words == init + [last];
      JoinSnoc(init, last);
      WordsOfJoin(init);
      WordsOfWord(last);
      if init != [] { WordsSplit(Join(init), '-', last); }
    }
  }

  // ---------------------------------------------------------------------------
  // Normal form
  // ---------------------------------------------------------------------------

  /** Lower-case alphanumerics and single interior dashes. */
  ghost predicate IsSlug(s: string) {
    && (forall i :: 0 <= i < |s| ==> SlugChar(s[i]) || s[i] == '-')
    && (s != "" ==> s[0] != '-' && s[|s| - 1] != '-')
    && (forall i :: 0 <= i < |s| - 1 ==> !(s[i] == '-' && s[i + 1] == '-'))
  }

  lemma {:induction false} JoinIsSlug(words: seq<string>)
    requires AreWords(words)
    ensures IsSlug(Join(words)) && (Join(words) == "" <==> words == [])
  {
    if |words| > 0 { assert IsWord(words[|words| - 1]); }
    if |words| > 1 {
      var init, last := words[..|words| - 1], words[|words| - 1];
      assert words == init + [last];
      JoinSnoc(init, last);
      JoinIsSlug(init);
      var s := Join(words);
      var n := |Join(init)|;
      assert s[..n] == Join(init) && s[n] == '-' && s[n + 1..] == last;
    }
  }

  lemma SlugNormalForm(s: string)
    ensures IsSlug(RepoSlug(s)) && IsSlug(SlotSlug(s))
  {
    WordsAreWords(s);
    JoinIsSlug(Words(s));
  }

  /** Capitals move 32 places up in ASCII; small letters and digits stay. */
  lemma ToLowerIs(c: char)
    ensures 65 <= c as int <= 90 ==> ToLower(c) as int == c as int + 32
    ensures !(65 <= c as int <= 90) ==> ToLower(c) == c
    ensures AlphaNum(c) <==> 48 <= c as int <= 57 || 65 <= c as int <= 90 || 97 <= c as int <= 122
  {
  }

  /** The two copies agree exactly on the nonempty inputs. */
  lemma CopiesAgreeIff(s: string)
    ensures SlotSlug(s) == RepoSlug(s) <==> s != ""
  {
  }

  /** Two inputs have the same repository slug exactly when they have the same words. */
  lemma SameSlugIff(s: string, t: string)
    ensures RepoSlug(s) == RepoSlug(t) <==> Words(s) == Words(t)
  {
    WordsAreWords(s);
    WordsAreWords(t);
    WordsOfJoin(Words(s));
    WordsOfJoin(Words(t));
  }

  lemma RepoSlugIdempotent(s: string)
    ensures RepoSlug(RepoSlug(s)) == RepoSlug(s)
  {
    WordsAreWords(s);
    WordsOfJoin(Words(s));
  }

  lemma {:induction false} NoWordsIff(s: string)
    ensures Words(s) == [] <==> forall i :: 0 <= i < |s| ==> !AlphaNum(s[i])
  {
    if s != "" { NoWordsIff(s[..|s| - 1]); }
  }

  /** The slot version is idempotent exactly when the input is empty or has an ASCII
      alphanumeric: on pure punctuation it yields "", and on "" it yields "task". */
  lemma SlotSlugIdempotentIff(s: string)
    ensures SlotSlug(SlotSlug(s)) == SlotSlug(s) <==> s == "" || exists i :: 0 <= i < |s| && AlphaNum(s[i])
  {
    NoWordsIff(s);
    WordsAreWords(s);
    JoinIsSlug(Words(s));
    WordsOfJoin(Words(s));
    assert IsWord("task");
    WordsOfWord("task");
  }

  // ---------------------------------------------------------------------------
  // The loops
  // ---------------------------------------------------------------------------

  function LeadDash(s: string): string { if s != "" && !AlphaNum(s[0]) then "-" else "" }

  function TailDash(s: string): string { if Words(s) != [] && !AlphaNum(s[|s| - 1]) then "-" else "" }

  /** The loop's output after reading `s`: the joined words, with one dash for a leading and
      one for a trailing run of separators. */
  function Raw(s: string): string { LeadDash(s) + Join(Words(s)) + TailDash(s) }

  lemma JoinGrow(init: seq<string>, last: string, d: string)
    ensures Join(init + [last + d]) == Join(init + [last]) + d
  {
    JoinSnoc(init, last);
    JoinSnoc(init, last + d);
    if init != [] { assert Join(init) + "-" + (last + d) == (Join(init) + "-" + last) + d; }
  }

  /** A letter or digit extends the last word or starts a new one after the trailing dash. */
  lemma JoinExtended(s: string, c: char)
    requires AlphaNum(c)
    ensures Join(Words(s + [c])) == Join(Words(s)) + TailDash(s) + [ToLower(c)]
  {
    WordsSnoc(s, c);
    var before, d := Words(s), [ToLower(c)];
    if EndsInWord(s) {
      var init, last := before[..|before| - 1], before[|before| - 1];
      assert before == init + [last];
      JoinGrow(init, last, d);
      assert Join(before) + "" == Join(before);
    } else {
      OpenOrClosed(s);
      JoinSnoc(before, d);
      assert before == [] ==> "" + "" + d == d;
    }
  }

  lemma OpenOrClosed(s: string)
    requires !EndsInWord(s)
    ensures TailDash(s) == if Words(s) == [] then "" else "-"
  {
  }

  lemma LeadKept(s: string, c: char)
    requires s != "" || AlphaNum(c)
    ensures LeadDash(s + [c]) == LeadDash(s)
  {
  }

  lemma Regroup(a: string, b: string, t: string, d: string)
    ensures a + (b + t + d) + "" == a + b + t + d
  {
  }

  lemma RawLetter(s: string, c: char)
    requires AlphaNum(c)
    ensures Raw(s + [c]) == Raw(s) + [ToLower(c)]
  {
    JoinExtended(s, c);
    LeadKept(s, c);
    assert TailDash(s + [c]) == "";
    Regroup(LeadDash(s), Join(Words(s)), TailDash(s), [ToLower(c)]);
  }

  lemma RawSeparator(s: string, c: char)
    requires !AlphaNum(c)
    ensures Raw(s + [c]) == if s != "" && !AlphaNum(s[|s| - 1]) then Raw(s) else Raw(s) + "-"
  {
    WordsSnoc(s, c);
    if s != "" { LeadKept(s, c); }
    if EndsInWord(s) {
      assert TailDash(s) == "" && TailDash(s + [c]) == "-";
      assert LeadDash(s) + Join(Words(s)) + "" + "-" == LeadDash(s) + Join(Words(s)) + "-";
    } else if s != "" {
      OpenOrClosed(s);
      OpenOrClosed(s + [c]);
    }
  }

  lemma {:induction false} TrimStartKeeps(s: string)
    requires s == "" || s[0] != '-'
    ensures TrimStart(s) == s && TrimStart("-" + s) == s
  {
    assert ("-" + s)[1..] == s;
  }

  lemma {:induction false} TrimEndKeeps(s: string)
    requires s == "" || s[|s| - 1] != '-'
    ensures TrimEnd(s) == s && TrimEnd(s + "-") == s
  {
    assert (s + "-")[..|s|] == s;
  }

  lemma TrimRaw(s: string)
    ensures Trim(Raw(s)) == RepoSlug(s)
  {
    WordsAreWords(s);
    JoinIsSlug(Words(s));
    var slug := Join(Words(s));
    var tail := TailDash(s);
    assert slug + "" == slug && "" + (slug + tail) == slug + tail;
    TrimStartKeeps(slug + tail);
    TrimEndKeeps(slug);
    if s != "" && !AlphaNum(s[0]) { assert Raw(s) == "-" + (slug + tail); } else { assert Raw(s) == slug + tail; }
  }

  /** What the loop has written once `done` is read, and whether that ended in a separator. */
  ghost predicate Written(done: string, output: string, lastDash: bool) {
    output == Raw(done) && (lastDash <==> done != "" && !AlphaNum(done[|done| - 1]))
  }

  lemma WriteLetter(done: string, output: string, lastDash: bool, c: char)
    requires Written(done, output, lastDash) && AlphaNum(c)
    ensures Written(done + [c], output + [ToLower(c)], false)
  {
    RawLetter(done, c);
  }

  lemma WriteSeparator(done: string, output: string, lastDash: bool, c: char)
    requires Written(done, output, lastDash) && !AlphaNum(c)
    ensures Written(done + [c], if lastDash then output else output + "-", true)
  {
    RawSeparator(done, c);
  }

  method SlugifyLoop(input: string) returns (output: string)
    ensures output == Raw(input)
  {
    output := "";
    var lastDash := false;
    for i := 0 to |input|
      invariant Written(input[..i], output, lastDash)
    {
      var ch := input[i];
      assert input[..i + 1] == input[..i] + [ch];
      if AlphaNum(ch) {
        WriteLetter(input[..i], output, lastDash, ch);
        output := output + [ToLower(ch)];
        lastDash := false;
      } else {
        WriteSeparator(input[..i], output, lastDash, ch);
        if !lastDash {
          output := output + "-";
          lastDash := true;
        }
      }
    }
    assert input[..|input|] == input;
  }

  /** slot.rs */
  method SlotSlugify(input: string) returns (output: string)
    ensures output == SlotSlug(input)
  {
    output := SlugifyLoop(input);
    RawEmptyIff(input);
    if output == "" {
      output := "task";
    } else {
      TrimRaw(input);
      output := Trim(output);
    }
  }

  /** repo.rs */
  method RepoSlugify(input: string) returns (output: string)
    ensures output == RepoSlug(input)
  {
    output := SlugifyLoop(input);
    TrimRaw(input);
    output := Trim(output);
  }

  lemma RawEmptyIff(s: string)
    ensures Raw(s) == "" <==> s == ""
  {
    if s != "" && AlphaNum(s[0]) {
      NoWordsIff(s);
      WordsAreWords(s);
      JoinIsSlug(Words(s));
    }
  }
}

/** What a slug keeps of its input. */
module SlugLetters {
  import opened Slug

  /** The ASCII letters and digits of `s`, lower-cased, in order. */
  function Kept(s: string): string {
    if s == "" then "" else Kept(s[..|s| - 1]) + if AlphaNum(s[|s| - 1]) then [ToLower(s[|s| - 1])] else ""
  }

  /** `s` without its dashes. */
  function Undashed(s: string): string {
    if s == "" then "" else Undashed(s[..|s| - 1]) + if s[|s| - 1] == '-' then "" else [s[|s| - 1]]
  }

  function Concat(words: seq<string>): string {
    if words == [] then "" else Concat(words[..|words| - 1]) + words[|words| - 1]
  }

  lemma ConcatExtend(words: seq<string>, open: bool, c: char)
    requires open ==> words != []
    ensures Concat(Extend(words, open, c)) == Concat(words) + if AlphaNum(c) then [ToLower(c)] else ""
  {
    var more := Extend(words, open, c);
    if AlphaNum(c) {
      if open { assert more[..|more| - 1] == words[..|words| - 1]; } else { assert more[..|more| - 1] == words; }
    }
  }

  lemma {:induction false} ConcatWords(s: string)
    ensures Concat(Words(s)) == Kept(s)
  {
    if s != "" {
      var init := s[..|s| - 1];
      ConcatWords(init);
      ConcatExtend(Words(init), EndsInWord(init), s[|s| - 1]);
    }
  }

  lemma {:induction false} UndashedMore(s: string, w: string)
    requires forall c :: c in w ==> c != '-'
    ensures Undashed(s + w) == Undashed(s) + w
  {
    if w == "" {
      assert s + w == s;
    } else {
      var init, c := w[..|w| - 1], w[|w| - 1];
      assert w == init + [c] && c in w;
      forall x | x in init ensures x != '-' { assert x in w; }
      UndashedMore(s, init);
      assert (s + w)[..|s + w| - 1] == s + init && s + w == s + init + [c];
    }
  }

  lemma UndashedNext(init: seq<string>, w: string)
    requires forall c :: c in w ==> c != '-'
    ensures Undashed(Join(init + [w])) == Undashed(Join(init)) + w
  {
    assert (init + [w])[..|init|] == init;
    if init == [] {
      assert Join([w]) == "" + w;
      UndashedMore("", w);
    } else {
      var dashed := Join(init) + "-";
      assert dashed[..|dashed| - 1] == Join(init);
      UndashedMore(dashed, w);
    }
  }

  lemma {:induction false} UndashedJoin(words: seq<string>)
    requires AreWords(words)
    ensures Undashed(Join(words)) == Concat(words)
  {
    if words != [] {
      var init, w := words[..|words| - 1], words[|words| - 1];
      forall c | c in w ensures c != '-' { var i :| 0 <= i < |w| && w[i] == c; }
      UndashedJoin(init);
      UndashedNext(init, w);
      assert words == init + [w];
    }
  }

  /** A slug loses nothing but its dashes' places: its letters and digits are the input's, in order. */
  lemma LettersKept(s: string)
    ensures Undashed(RepoSlug(s)) == Kept(s) && (s != "" ==> Undashed(SlotSlug(s)) == Kept(s))
  {
    WordsAreWords(s);
    UndashedJoin(Words(s));
    ConcatWords(s);
  }
}

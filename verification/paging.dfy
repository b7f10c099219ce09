/** The paging of ListVolumes and ListSnapshots over a given list of entries. */
module Paging {
  import opened Common

  const MAX_INT64 := 0x7fff_ffff_ffff_ffff
  const MIN_INT64 := -0x8000_0000_0000_0000
  const MAX_INT32 := 0x7fff_ffff

  type Int64 = n: int | MIN_INT64 <= n <= MAX_INT64

  // max_entries of a request
  type Int32 = n: int | -0x8000_0000 <= n <= MAX_INT32

  // The sum of two 64-bit integers, wrapping around.
  function Add64(a: Int64, b: Int64): Int64 {
    var sum := a + b;
    if sum > MAX_INT64 then sum - 0x1_0000_0000_0000_0000
    else if sum < MIN_INT64 then sum + 0x1_0000_0000_0000_0000
    else sum
  }

  // ---- Decimal numerals: strconv.Itoa and strconv.Atoi ----

  predicate IsDigit(c: char) { '0' <= c <= '9' }

  function DigitOf(n: nat): (c: char)
    requires n < 10
    ensures IsDigit(c) && c as int - '0' as int == n
  {
    (n + '0' as int) as char
  }

  function Digits(n: nat): (s: string)
    ensures s != "" && forall c <- s :: IsDigit(c)
  {
    if n < 10 then [DigitOf(n)] else Digits(n / 10) + [DigitOf(n % 10)]
  }

  // The number that the first n digits stand for.
  function ValueTo(s: string, n: nat): nat
    requires n <= |s| && forall c <- s :: IsDigit(c)
  {
    if n == 0 then 0
    else
      assert IsDigit(s[n - 1]);
      var units: int := s[n - 1] as int - '0' as int;
      10 * ValueTo(s, n - 1) + units
  }

  function Value(s: string): nat
    requires forall c <- s :: IsDigit(c)
  {
    ValueTo(s, |s|)
  }

  function Itoa(n: int): string { if n < 0 then "-" + Digits(-n) else Digits(n) }

  function Unsigned(s: string): string { if s != "" && (s[0] == '-' || s[0] == '+') then s[1..] else s }

  function Atoi(s: string): Option<Int64> {
    var digits := Unsigned(s);
    if digits == "" || exists c <- digits :: !IsDigit(c) then None
    else
      var v: int := Value(digits);
      var n := if s[0] == '-' then -v else v;
      if MIN_INT64 <= n <= MAX_INT64 then Some(n) else None
  }

  lemma {:induction false} PrefixValue(s: string, more: string, n: nat)
    requires n <= |s| && (forall c <- s :: IsDigit(c)) && (forall c <- s + more :: IsDigit(c))
    ensures ValueTo(s + more, n) == ValueTo(s, n)
  {
    if n > 0 {
      assert (s + more)[n - 1] == s[n - 1];
      PrefixValue(s, more, n - 1);
    }
  }

  lemma LastDigit(tens: string, units: nat)
    requires units < 10 && forall c <- tens :: IsDigit(c)
    ensures Value(tens + [DigitOf(units)]) == 10 * Value(tens) + units
  {
    PrefixValue(tens, [DigitOf(units)], |tens|);
  }

  lemma {:induction false} DigitsValue(n: nat)
    ensures Value(Digits(n)) == n
  {
    if n < 10 {
      assert Digits(n) == "" + [DigitOf(n)];
      LastDigit("", n);
    } else {
      DigitsValue(n / 10);
      LastDigit(Digits(n / 10), n % 10);
    }
  }

  /** Parsing a printed number returns it, exactly if it fits into 64 bits. */
  lemma AtoiItoa(n: int)
    ensures Atoi(Itoa(n)) == if MIN_INT64 <= n <= MAX_INT64 then Some(n) else None
  {
    var m: nat := if n < 0 then -n else n;
    DigitsValue(m);
    assert IsDigit(Digits(m)[0]);
    assert Unsigned(Itoa(n)) == Digits(m);
  }

  predicate AllDigits(s: string) { s != "" && forall c <- s :: IsDigit(c) }

  // The number, if it fits into 64 bits.
  function Fitting(n: int): Option<Int64> { if MIN_INT64 <= n <= MAX_INT64 then Some(n) else None }

  /** A string of digits is a number, with or without a sign in front; nothing else is one. */
  lemma AtoiExactly(s: string)
    ensures AllDigits(s) ==> Atoi(s) == Fitting(Value(s))
    ensures s != "" && s[0] == '+' && AllDigits(s[1..]) ==> Atoi(s) == Fitting(Value(s[1..]))
    ensures s != "" && s[0] == '-' && AllDigits(s[1..]) ==> Atoi(s) == Fitting(0 - Value(s[1..]) as int)
    ensures Atoi(s).Some? ==> AllDigits(s) || (s != "" && (s[0] == '+' || s[0] == '-') && AllDigits(s[1..]))
  {
    if s != "" {
      if s[0] == '+' || s[0] == '-' { assert Unsigned(s) == s[1..] && !IsDigit(s[0]); }
      else { assert Unsigned(s) == s; }
    }
  }

  // ---- One page ----

  datatype Page<T> = Page(entries: seq<T>, next: string)

  /** Aborted, InvalidArgument: the error codes; Crash: a slice with bounds out of range. */
  datatype Outcome<T> = Listed(page: Page<T>) | Aborted | InvalidArgument | Crash

  const LAST_PAGE := "0"

  function ListFrom<T>(entries: seq<T>, start: Int64, maxIndex: Int64): Outcome<T> {
    if start >= |entries| then Listed(Page([], LAST_PAGE))
    else if maxIndex >= |entries| then
      if start < 0 then Crash else Listed(Page(entries[start..], LAST_PAGE))
    else
      if 0 <= start <= maxIndex then Listed(Page(entries[start..maxIndex], Itoa(maxIndex))) else Crash
  }

  // Where the list is to start.
  function StartOf(token: string): Option<Int64> { if token == "" then Some(0) else Atoi(token) }

  function ListPage<T>(entries: seq<T>, token: string, maxEntries: Int32): Outcome<T> {
    var start := StartOf(token);
    if start.None? then Aborted
    else if maxEntries < 0 then InvalidArgument
    else ListFrom(entries, start.value, if maxEntries > 0 then Add64(start.value, maxEntries) else MAX_INT32)
  }

  method List<T>(all: seq<T>, token: string, maxEntries: Int32) returns (r: Outcome<T>)
    ensures r == ListPage(all, token, maxEntries)
  {
    var startIndex: Int64 := 0;
    if |token| > 0 {
      var parsed := Atoi(token);
      if parsed.None? { return Aborted; }
      startIndex := parsed.value;
    }
    var maxIndex: Int64;
    if maxEntries < 0 {
      return InvalidArgument;
    } else if maxEntries > 0 {
      maxIndex := Add64(startIndex, maxEntries);
    } else {
      maxIndex := MAX_INT32;
    }
    var nextToken, entries := LAST_PAGE, all;
    if startIndex >= |entries| {
      entries := [];
    } else if maxIndex >= |entries| {
      if startIndex < 0 { return Crash; }
      entries := entries[startIndex..];
    } else {
      if !(0 <= startIndex <= maxIndex) { return Crash; }
      nextToken := Itoa(maxIndex);
      entries := entries[startIndex..maxIndex];
    }
    return Listed(Page(entries, nextToken));
  }

  /** A request crashes exactly when its token is a number below the length of the list, and negative, or
      beyond the bound used without max_entries, or so large that adding max_entries wraps around. */
  lemma CrashesExactly<T>(entries: seq<T>, token: string, maxEntries: Int32)
    ensures ListPage(entries, token, maxEntries).Crash? <==>
              && maxEntries >= 0 && StartOf(token).Some?
              && var start := StartOf(token).value;
              && start < |entries|
              && (start < 0 || start + maxEntries > MAX_INT64 || (maxEntries == 0 && start > MAX_INT32))
  {
  }

  /** A request is turned down exactly when its token is not a number, or else its max_entries is negative. */
  lemma ErrorsExactly<T>(entries: seq<T>, token: string, maxEntries: Int32)
    ensures ListPage(entries, token, maxEntries).Aborted? <==> token != "" && Atoi(token).None?
    ensures ListPage(entries, token, maxEntries).InvalidArgument? <==>
              maxEntries < 0 && (token == "" || Atoi(token).Some?)
  {
  }

  /** Without max_entries the whole list comes in one page exactly when it has fewer than 2^31 entries. */
  lemma ZeroMeansAll<T>(entries: seq<T>)
    ensures ListPage(entries, "", 0) == Listed(Page(entries, LAST_PAGE)) <==> |entries| <= MAX_INT32
  {
    if |entries| > MAX_INT32 {
      AtoiItoa(MAX_INT32);
      AtoiItoa(0);
    }
  }

  // ---- Following the tokens ----

  function Server<T>(entries: seq<T>, maxEntries: Int32): string -> Outcome<T> {
    token => ListPage(entries, token, maxEntries)
  }

  function Min(a: int, b: int): int { if a < b then a else b }

  /** The pages a client gets that starts without a token and sends back each next token, as long as
      that is not the token of the last page. */
  ghost predicate Follows<T>(entries: seq<T>, maxEntries: Int32, pages: seq<Page<T>>) {
    PagesOf(Server(entries, maxEntries), pages)
  }

  ghost predicate PagesOf<T>(serve: string -> Outcome<T>, pages: seq<Page<T>>) {
    var k := |pages| - 1;
    k >= 0 ==> PagesOf(serve, pages[..k]) && PageOf(serve, pages, k)
  }

  ghost predicate PageOf<T>(serve: string -> Outcome<T>, pages: seq<Page<T>>, i: nat)
    requires i < |pages|
  {
    && serve(if i == 0 then "" else pages[i - 1].next) == Listed(pages[i])
    && (i > 0 ==> pages[i - 1].next != LAST_PAGE)
  }

  lemma {:induction false} EachPage<T>(serve: string -> Outcome<T>, pages: seq<Page<T>>, i: nat)
    requires PagesOf(serve, pages) && i < |pages|
    ensures PageOf(serve, pages, i)
  {
    if i < |pages| - 1 { EachPage(serve, pages[..|pages| - 1], i); }
  }

  lemma {:induction false} OneMorePage<T>(serve: string -> Outcome<T>, pages: seq<Page<T>>, page: Page<T>)
    ensures PagesOf(serve, pages + [page]) <==>
              PagesOf(serve, pages) && PageOf(serve, pages + [page], |pages|)
  {
    assert (pages + [page])[..|pages|] == pages;
  }

  function Concat<T>(pages: seq<Page<T>>): seq<T> {
    if pages == [] then [] else Concat(pages[..|pages| - 1]) + pages[|pages| - 1].entries
  }

  lemma NextToken(n: nat)
    ensures Itoa(n) == LAST_PAGE <==> n == 0
    ensures Itoa(n) != ""
  {
    AtoiItoa(n);
    AtoiItoa(0);
    assert Itoa(0) == LAST_PAGE;
  }

  // i * maxEntries, where the i-th page begins.
  function Offset(i: nat, maxEntries: nat): nat { if i == 0 then 0 else Offset(i - 1, maxEntries) + maxEntries }

  // What a page holds that is served for a token standing for start.
  lemma PageFrom<T>(entries: seq<T>, token: string, maxEntries: Int32, start: nat, page: Page<T>)
    requires maxEntries > 0 && StartOf(token) == Some(start)
    requires ListPage(entries, token, maxEntries) == Listed(page)
    ensures page.entries == entries[Min(start, |entries|)..Min(start + maxEntries, |entries|)]
    ensures page.next == if start + maxEntries >= |entries| then LAST_PAGE else Itoa(start + maxEntries)
  {
  }

  lemma StartAgain(n: nat, token: string)
    requires token == Itoa(n) && StartOf(token).Some?
    ensures StartOf(token) == Some(n)
  {
    AtoiItoa(n);
    NextToken(n);
  }

  /** The i-th page holds the i-th stretch of maxEntries entries, and is marked as the last one exactly
      when it reaches the end of the list. */
  lemma {:induction false} PageAt<T>(entries: seq<T>, maxEntries: Int32, pages: seq<Page<T>>, i: nat)
    requires maxEntries > 0 && Follows(entries, maxEntries, pages) && i < |pages|
    ensures Offset(i, maxEntries) <= |entries| && (i > 0 ==> Offset(i, maxEntries) < |entries|)
    ensures var end := Offset(i + 1, maxEntries);
            && pages[i].entries == entries[Offset(i, maxEntries)..Min(end, |entries|)]
            && pages[i].next == if end >= |entries| then LAST_PAGE else Itoa(end)
  {
    EachPage(Server(entries, maxEntries), pages, i);
    var start, token := Offset(i, maxEntries), if i == 0 then "" else pages[i - 1].next;
    assert ListPage(entries, token, maxEntries) == Listed(pages[i]);
    if i > 0 {
      PageAt(entries, maxEntries, pages, i - 1);
      StartAgain(start, token);
    }
    PageFrom(entries, token, maxEntries, start, pages[i]);
  }

  // The page holds the i-th stretch of m entries, and is marked if it reaches the end.
  ghost predicate IsStretch<T>(entries: seq<T>, m: nat, page: Page<T>, i: nat) {
    && Offset(i, m) <= |entries|
    && page.entries == entries[Offset(i, m)..Min(Offset(i + 1, m), |entries|)]
    && (page.next == LAST_PAGE <==> Offset(i + 1, m) >= |entries|)
  }

  ghost predicate Stretches<T>(entries: seq<T>, m: nat, pages: seq<Page<T>>) {
    forall i | 0 <= i < |pages| :: IsStretch(entries, m, pages[i], i)
  }

  lemma PagesAreStretches<T>(entries: seq<T>, maxEntries: Int32, pages: seq<Page<T>>)
    requires maxEntries > 0 && Follows(entries, maxEntries, pages)
    ensures Stretches(entries, maxEntries, pages)
  {
    forall i | 0 <= i < |pages| ensures IsStretch(entries, maxEntries, pages[i], i) {
      PageAt(entries, maxEntries, pages, i);
      NextToken(Offset(i + 1, maxEntries));
    }
  }

  lemma {:induction false} ConcatIsPrefix<T>(entries: seq<T>, m: nat, pages: seq<Page<T>>)
    requires Stretches(entries, m, pages)
    ensures Concat(pages) == entries[..Min(Offset(|pages|, m), |entries|)]
  {
    var k := |pages| - 1;
    if k >= 0 {
      ConcatIsPrefix(entries, m, pages[..k]);
      assert IsStretch(entries, m, pages[k], k);
    }
  }

  /** The pages partition the list: together the pages read so far are the beginning of the list, and
      they are all of it exactly when the last one read carries the token of the last page. */
  lemma PagesPartition<T>(entries: seq<T>, maxEntries: Int32, pages: seq<Page<T>>)
    requires maxEntries > 0 && Follows(entries, maxEntries, pages) && pages != []
    ensures Concat(pages) <= entries
    ensures pages[|pages| - 1].next == LAST_PAGE <==> Concat(pages) == entries
  {
    PagesAreStretches(entries, maxEntries, pages);
    ConcatIsPrefix(entries, maxEntries, pages);
  }

  lemma {:induction false} OffsetGrows(i: nat, maxEntries: nat)
    requires maxEntries > 0
    ensures i <= Offset(i, maxEntries) == i * maxEntries
  {
    if i > 0 { OffsetGrows(i - 1, maxEntries); }
  }

  /** Following the tokens ends: all pages but the last are full, so there are no more pages than
      entries, and every page that is not marked as the last has a next one. */
  lemma PagesEnd<T(!new)>(entries: seq<T>, maxEntries: Int32, pages: seq<Page<T>>)
    requires |entries| + maxEntries <= MAX_INT64 && maxEntries > 0 && Follows(entries, maxEntries, pages)
    ensures |pages| > 1 ==> |pages| - 1 <= (|pages| - 1) * maxEntries < |entries|
    ensures (exists p :: Follows(entries, maxEntries, pages + [p])) <==>
              pages == [] || pages[|pages| - 1].next != LAST_PAGE
  {
    var k := |pages|;
    if k > 0 {
      PageAt(entries, maxEntries, pages, k - 1);
      OffsetGrows(k - 1, maxEntries);
    }
    if pages == [] || pages[k - 1].next != LAST_PAGE {
      NextPage(entries, maxEntries, pages);
    } else {
      forall p ensures !Follows(entries, maxEntries, pages + [p]) {
        OneMorePage(Server(entries, maxEntries), pages, p);
      }
    }
  }

  lemma NextPage<T(!new)>(entries: seq<T>, maxEntries: Int32, pages: seq<Page<T>>)
    requires |entries| + maxEntries <= MAX_INT64 && maxEntries > 0 && Follows(entries, maxEntries, pages)
    requires pages == [] || pages[|pages| - 1].next != LAST_PAGE
    ensures exists p :: Follows(entries, maxEntries, pages + [p])
  {
    var k := |pages|;
    if k > 0 {
      PageAt(entries, maxEntries, pages, k - 1);
      AtoiItoa(Offset(k, maxEntries));
      NextToken(Offset(k, maxEntries));
    }
    var outcome := ListPage(entries, if k == 0 then "" else pages[k - 1].next, maxEntries);
    assert outcome.Listed?;
    OneMorePage(Server(entries, maxEntries), pages, outcome.page);
    assert Follows(entries, maxEntries, pages + [outcome.page]);
  }

  /** The token of the last page is a valid token: a client that sends it back, as it would any
      non-empty next token, starts again from the first page. */
  lemma LastTokenStartsOver<T>(entries: seq<T>, maxEntries: Int32)
    ensures ListPage(entries, LAST_PAGE, maxEntries) == ListPage(entries, "", maxEntries)
  {
    AtoiItoa(0);
    assert Itoa(0) == LAST_PAGE;
  }
}

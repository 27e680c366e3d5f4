/**
 The connection store's `recentUrls`: a bounded most-recent-first list that is truncated at
 every connect.
 */
module RecentUrls {
  import opened Telemetry

  const MAX_RECENT := 5

  function Without<T(==)>(s: seq<T>, u: T): seq<T> {
    if s == [] then [] else if s[0] == u then Without(s[1..], u) else [s[0]] + Without(s[1..], u)
  }

  function Take<T>(s: seq<T>, n: nat): seq<T> {
    if |s| <= n then s else s[..n]
  }

  /** `[url, ...recentUrls.filter(u => u !== url)].slice(0, 5)`. */
  function Remember(recent: seq<string>, url: string): seq<string> {
    Take([url] + Without(recent, url), MAX_RECENT)
  }

  /** White space and line ends as `String.prototype.trim` sees them. */
  predicate IsSpace(c: char) {
    || '\U{0009}' <= c <= '\U{000D}' || c == ' ' || c == '\U{00A0}' || c == '\U{1680}'
    || '\U{2000}' <= c <= '\U{200A}' || c == '\U{2028}' || c == '\U{2029}' || c == '\U{202F}'
    || c == '\U{205F}' || c == '\U{3000}' || c == '\U{FEFF}'
  }

  function TrimStart(s: string): string {
    if s != "" && IsSpace(s[0]) then TrimStart(s[1..]) else s
  }

  function TrimEnd(s: string): string {
    if s != "" && IsSpace(s[|s| - 1]) then TrimEnd(s[..|s| - 1]) else s
  }

  function Trim(s: string): string {
    TrimEnd(TrimStart(s))
  }

  /** What is left does not begin with space, and only space was cut off. */
  lemma {:induction false} TrimStartFacts(s: string)
    ensures TrimStart(s) != "" ==> !IsSpace(TrimStart(s)[0])
    ensures |TrimStart(s)| <= |s| && TrimStart(s) == s[|s| - |TrimStart(s)|..] && Blank(s[..|s| - |TrimStart(s)|])
  {
    if s != "" && IsSpace(s[0]) {
      TrimStartFacts(s[1..]);
      var r := TrimStart(s);
      assert s[1..][|s| - 1 - |r|..] == s[|s| - |r|..];
      assert s[..|s| - |r|] == [s[0]] + s[1..][..|s| - 1 - |r|];
    }
  }

  lemma {:induction false} TrimEndFacts(s: string)
    ensures TrimEnd(s) != "" ==> !IsSpace(TrimEnd(s)[|TrimEnd(s)| - 1])
    ensures TrimEnd(s) <= s && Blank(s[|TrimEnd(s)|..])
  {
    if s != "" && IsSpace(s[|s| - 1]) {
      var front, r := s[..|s| - 1], TrimEnd(s);
      TrimEndFacts(front);
      assert r == front[..|r|] == s[..|r|];
      assert s[|r|..] == front[|r|..] + [s[|s| - 1]];
    }
  }

  /** A trimmed text neither begins nor ends with space, and is what is left of the text once
      blank ends are cut off. */
  lemma TrimFacts(s: string) returns (i: nat, j: nat)
    ensures Trim(s) != "" ==> !IsSpace(Trim(s)[0]) && !IsSpace(Trim(s)[|Trim(s)| - 1])
    ensures i <= j <= |s| && Trim(s) == s[i..j] && Blank(s[..i]) && Blank(s[j..])
  {
    var t := TrimStart(s);
    TrimStartFacts(s);
    TrimEndFacts(t);
    i := |s| - |t|;
    j := i + |Trim(s)|;
    assert t[|Trim(s)|..] == s[j..];
  }

  predicate Blank(s: string) {
    forall i :: 0 <= i < |s| ==> IsSpace(s[i])
  }

  datatype Status = Idle | Connecting | Connected | Failed

  class ConnectionStore {
    var baseUrl: string
    var recentUrls: seq<string>
    var status: Status
    var lastError: Option<string>

    constructor ()
      ensures baseUrl == "" && recentUrls == [] && status == Idle && lastError == None
    {
      baseUrl, recentUrls, status, lastError := "", [], Idle, None;
    }

    /** `connect` up to its await: the URL that is going to be probed. */
    method Connect(given: Option<string>) returns (url: string)
      modifies this`status, this`lastError
      ensures url == Trim(if given.Some? then given.value else baseUrl)
      ensures status == Connecting && lastError == None
    {
      url := Trim(if given.Some? then given.value else baseUrl);
      status, lastError := Connecting, None;
    }

    /** `connect` after its await, whatever happened to the store meanwhile. */
    method Probed(url: string, error: Option<string>) returns (ok: bool)
      modifies this
      ensures ok == error.None? && lastError == error
      ensures ok ==> recentUrls == Remember(old(recentUrls), url) && baseUrl == url && status == Connected
      ensures ok ==> 0 < |recentUrls| <= 5 && recentUrls[0] == url
      ensures !ok ==> recentUrls == old(recentUrls) && baseUrl == old(baseUrl) && status == Failed
    {
      lastError := error;
      if error.Some? {
        status := Failed;
        return false;
      }
      recentUrls := Remember(recentUrls, url);
      baseUrl, status := url, Connected;
      return true;
    }

    method Disconnect()
      modifies this`status
      ensures status == Idle
    {
      status := Idle;
    }

    /** The URL is gone, every other entry is still there as often as before, and they are in
        their old order. */
    method ForgetRecent(url: string)
      modifies this`recentUrls
      ensures url !in recentUrls
      ensures forall u :: u != url ==> multiset(recentUrls)[u] == multiset(old(recentUrls))[u]
      ensures Subsequence(recentUrls, old(recentUrls))
      ensures recentUrls == Without(old(recentUrls), url)
    {
      WithoutKeepsTheRest(recentUrls, url);
      recentUrls := Without(recentUrls, url);
    }
  }

  /** `a` is left of `b` when some elements are crossed out. */
  ghost predicate Subsequence<T>(a: seq<T>, b: seq<T>) {
    a == [] || (b != [] && if a[0] == b[0] then Subsequence(a[1..], b[1..]) else Subsequence(a, b[1..]))
  }

  lemma {:induction false} WithoutKeepsTheRest<T>(s: seq<T>, u: T)
    ensures u !in Without(s, u) && Subsequence(Without(s, u), s)
    ensures forall x :: x != u ==> multiset(Without(s, u))[x] == multiset(s)[x]
  {
    if s != [] {
      WithoutKeepsTheRest(s[1..], u);
      assert s == [s[0]] + s[1..];
      var rest := Without(s[1..], u);
      if s[0] == u {
        assert rest != [] ==> rest[0] in rest;
      } else {
        assert ([s[0]] + rest)[1..] == rest;
      }
    }
  }

  // ----- Only connects -----

  function AfterConnects(urls: seq<string>): seq<string> {
    if urls == [] then [] else Remember(AfterConnects(urls[..|urls| - 1]), urls[|urls| - 1])
  }

  /** The history, latest first. */
  function Reversed(s: seq<string>): seq<string> {
    if s == [] then [] else [s[|s| - 1]] + Reversed(s[..|s| - 1])
  }

  /** First occurrences only. */
  function Dedup(s: seq<string>): seq<string> {
    if s == [] then [] else [s[0]] + Without(Dedup(s[1..]), s[0])
  }

  lemma {:induction false} WithoutFacts(s: seq<string>, u: string)
    ensures forall x :: x in Without(s, u) <==> x in s && x != u
    ensures Distinct(s) ==> Distinct(Without(s, u))
    ensures u !in s ==> Without(s, u) == s
    ensures |Without(s, u)| <= |s|
  {
    if s != [] {
      WithoutFacts(s[1..], u);
      assert s == [s[0]] + s[1..];
      if s[0] != u && Distinct(s) {
        var r := Without(s, u);
        forall i, j | 0 <= i < j < |r| ensures r[i] != r[j] {
          if i == 0 { assert r[j] in Without(s[1..], u); }
        }
      }
    }
  }

  lemma {:induction false} DedupIsDistinct(s: seq<string>)
    ensures Distinct(Dedup(s))
  {
    if s != [] {
      DedupIsDistinct(s[1..]);
      WithoutFacts(Dedup(s[1..]), s[0]);
      var rest := Without(Dedup(s[1..]), s[0]);
      forall i, j | 0 <= i < j < |Dedup(s)| ensures Dedup(s)[i] != Dedup(s)[j] {
        if i == 0 { assert Dedup(s)[j] in rest; }
      }
    }
  }

  /** Removing one element costs a list without duplicates at most one of its first n + 1. */
  lemma {:induction false} TruncateThenRemove(d: seq<string>, u: string, n: nat)
    requires Distinct(d)
    ensures Take(Without(Take(d, n + 1), u), n) == Take(Without(d, u), n)
  {
    if |d| > n + 1 {
      if d[0] == u {
        assert u !in d[1..];
        WithoutFacts(d[1..], u);
        assert Take(d, n + 1)[1..] == d[1..n + 1];
        assert u !in d[1..n + 1];
        WithoutFacts(d[1..n + 1], u);
      } else if n > 0 {
        TruncateThenRemove(d[1..], u, n - 1);
        assert Take(d, n + 1)[1..] == Take(d[1..], n);
        assert Take(d, n + 1)[0] == d[0];
        TakeOfCons(d[0], Without(Take(d[1..], n), u), n);
        TakeOfCons(d[0], Without(d[1..], u), n);
      }
    }
  }

  lemma TakeOfCons(x: string, s: seq<string>, n: nat)
    requires n > 0
    ensures Take([x] + s, n) == [x] + Take(s, n - 1)
  {
  }

  /** From an empty start the list is exactly the five most recent different URLs: truncating
      at every connect loses nothing. */
  lemma {:induction false} RecentIsExact(urls: seq<string>)
    ensures
      var latest := Dedup(Reversed(urls));
      AfterConnects(urls) == if |latest| <= 5 then latest else latest[..5]
  {
    if urls != [] {
      var before, u := urls[..|urls| - 1], urls[|urls| - 1];
      RecentIsExact(before);
      var d := Dedup(Reversed(before));
      DedupIsDistinct(Reversed(before));
      assert Reversed(urls)[1..] == Reversed(before);
      TruncateThenRemove(d, u, MAX_RECENT - 1);
      TakeOfCons(u, Without(Take(d, MAX_RECENT), u), MAX_RECENT);
      TakeOfCons(u, Without(d, u), MAX_RECENT);
    }
  }

  // ----- Connects and forgets -----

  datatype Op = ConnectOk(url: string) | Forget(url: string)

  function After(ops: seq<Op>): seq<string> {
    if ops == [] then []
    else
      match ops[|ops| - 1]
      case ConnectOk(url) => Remember(After(ops[..|ops| - 1]), url)
      case Forget(url) => Without(After(ops[..|ops| - 1]), url)
  }

  /** One more than the position of the last connect to `u`; 0 if there is none, or if `u`
      was forgotten after it. */
  function LastUse(ops: seq<Op>, u: string): nat {
    if ops == [] then 0
    else if ops[|ops| - 1].url == u then (if ops[|ops| - 1].ConnectOk? then |ops| else 0)
    else LastUse(ops[..|ops| - 1], u)
  }

  lemma {:induction false} LastUseIsPast(ops: seq<Op>, u: string)
    ensures LastUse(ops, u) <= |ops|
  {
    if ops != [] { LastUseIsPast(ops[..|ops| - 1], u); }
  }

  ghost predicate LatestFirst(list: seq<string>, ops: seq<Op>) {
    forall i, j :: 0 <= i < j < |list| ==> LastUse(ops, list[i]) > LastUse(ops, list[j])
  }

  lemma {:induction false} WithoutKeepsOrder(list: seq<string>, u: string, ops: seq<Op>)
    requires LatestFirst(list, ops)
    ensures LatestFirst(Without(list, u), ops)
  {
    if list != [] {
      WithoutKeepsOrder(list[1..], u, ops);
      WithoutFacts(list[1..], u);
      if list[0] != u {
        var r := Without(list, u);
        forall i, j | 0 <= i < j < |r| ensures LastUse(ops, r[i]) > LastUse(ops, r[j]) {
          if i == 0 {
            assert r[j] in Without(list[1..], u);
            var k :| 0 <= k < |list[1..]| && list[1..][k] == r[j];
            assert list[k + 1] == r[j];
          }
        }
      }
    }
  }

  /** Dropping or adding one URL keeps the order of the others. */
  lemma OthersKeepTheirUse(before: seq<Op>, op: Op, rest: seq<string>)
    requires op.url !in rest && LatestFirst(rest, before)
    ensures LatestFirst(rest, before + [op])
    ensures forall x :: x in rest ==> LastUse(before + [op], x) == LastUse(before, x) <= |before|
  {
    assert (before + [op])[..|before|] == before;
    forall x | x in rest ensures LastUse(before + [op], x) == LastUse(before, x) <= |before| {
      LastUseIsPast(before, x);
    }
  }

  lemma FrontIsLatest(before: seq<Op>, u: string, rest: seq<string>)
    requires u !in rest && LatestFirst(rest, before) && Distinct(rest)
    ensures LatestFirst([u] + rest, before + [ConnectOk(u)]) && Distinct([u] + rest)
    ensures LastUse(before + [ConnectOk(u)], u) == |before| + 1
  {
    OthersKeepTheirUse(before, ConnectOk(u), rest);
    var ops := before + [ConnectOk(u)];
    assert ops[|ops| - 1] == ConnectOk(u);
    FrontKeepsOrder(u, rest, ops);
    FrontKeepsDistinct(u, rest);
  }

  lemma FrontKeepsOrder(u: string, rest: seq<string>, ops: seq<Op>)
    requires LatestFirst(rest, ops) && forall x :: x in rest ==> LastUse(ops, x) < LastUse(ops, u)
    ensures LatestFirst([u] + rest, ops)
  {
    var full := [u] + rest;
    forall i, j | 0 <= i < j < |full| ensures LastUse(ops, full[i]) > LastUse(ops, full[j]) {
      assert rest[j - 1] in rest;
      if i > 0 { assert LastUse(ops, rest[i - 1]) > LastUse(ops, rest[j - 1]); }
    }
  }

  lemma FrontKeepsDistinct(u: string, rest: seq<string>)
    requires u !in rest && Distinct(rest)
    ensures Distinct([u] + rest)
  {
  }

  /** With forgets the list stays bounded, without duplicates and ordered by last use, and
      every URL in it was connected after it was last forgotten. */
  lemma {:induction false} RecentStaysOrdered(ops: seq<Op>)
    ensures |After(ops)| <= 5 && LatestFirst(After(ops), ops) && Distinct(After(ops))
    ensures forall u :: u in After(ops) ==> LastUse(ops, u) > 0
  {
    if ops != [] {
      var before, op := ops[..|ops| - 1], ops[|ops| - 1];
      assert ops == before + [op];
      RecentStaysOrdered(before);
      var rest := Without(After(before), op.url);
      WithoutFacts(After(before), op.url);
      WithoutKeepsOrder(After(before), op.url, before);
      OthersKeepTheirUse(before, op, rest);
      if op.ConnectOk? {
        FrontIsLatest(before, op.url, rest);
      }
    }
  }
}
